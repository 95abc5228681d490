/**
 Decoding a Responses API stream (bifrost/responses.go): routing of argument deltas to the
 function call they belong to, and the order of the events the reader gets.
 */
module ResponsesStream {
  import opened Wrappers
  import opened GoStrings
  import opened StreamEvents

  datatype ToolMessage = ToolMessage(callId: Option<string>, name: Option<string>, arguments: Option<string>)

  datatype Item = Item(isFunctionCall: bool, tool: Option<ToolMessage>)

  /** Activity says whether the chunk changed what is known of the provider's own tools. */
  datatype Chunk =
    | Failure
    | Other
    | TextDelta(delta: Option<string>)
    | ReasoningText(delta: Option<string>, signature: Option<string>)
    | ReasoningProgress(signature: Option<string>)
    | AnnotationAdded(citation: Option<string>)
    | TextDone
    | ArgumentsDelta(item: Option<Item>, outputIndex: Option<int>, delta: Option<string>)
    | CodeDone(activity: bool)
    | ItemAdded(item: Option<Item>, outputIndex: Option<int>, activity: bool)
    | ItemDone(item: Option<Item>, sources: seq<string>, activity: bool)
    | Completed(usage: Option<TokenUsage>)

  // ---------------------------------------------------------------- routing

  /** Which call an output index stands for, and what was collected for each call. */
  datatype Routing = Routing(buffers: Buffers<string>, routes: map<int, string>)

  const UNROUTED := Routing(map[], map[])

  function BufferOf(buffers: Buffers<string>, callId: string): ToolCallBuffer {
    if callId in buffers then buffers[callId] else ToolCallBuffer(callId, "", "")
  }

  function Named(b: ToolCallBuffer, name: Option<string>): ToolCallBuffer {
    if name.Some? then b.(name := name.value) else b
  }

  function Extended(b: ToolCallBuffer, arguments: Option<string>): ToolCallBuffer {
    if arguments.Some? then b.(arguments := b.arguments + arguments.value) else b
  }

  /** Final values replace what was collected, unless they are empty. */
  function Finalized(b: ToolCallBuffer, tm: ToolMessage): ToolCallBuffer {
    ToolCallBuffer(
      b.id,
      if Value(tm.name) != "" then Value(tm.name) else b.name,
      if Value(tm.arguments) != "" then Value(tm.arguments) else b.arguments)
  }

  /** The call that an item names; empty for one that is not a function call. */
  function FunctionCallId(item: Option<Item>): string {
    if item.Some? && item.value.isFunctionCall && item.value.tool.Some? then Value(item.value.tool.value.callId) else ""
  }

  predicate HasTool(item: Option<Item>) {
    item.Some? && item.value.tool.Some?
  }

  /** The call an argument delta belongs to: the one its item names or, without an item, the
      one registered for its output index. */
  function DeltaTarget(chunk: Chunk, routes: map<int, string>): Option<string>
    requires chunk.ArgumentsDelta?
  {
    if HasTool(chunk.item) then
      var callId := Value(chunk.item.value.tool.value.callId);
      if callId == "" then None else Some(callId)
    else if chunk.outputIndex.Some? && chunk.delta.Some? then Lookup(routes, chunk.outputIndex.value)
    else None
  }

  function Routed(r: Routing, chunk: Chunk): Routing {
    match chunk
    case ArgumentsDelta(item, _, delta) =>
      var target := DeltaTarget(chunk, r.routes);
      if target.None? then r
      else
        var named := if HasTool(item) then Named(BufferOf(r.buffers, target.value), item.value.tool.value.name)
                     else BufferOf(r.buffers, target.value);
        r.(buffers := r.buffers[target.value := Extended(named, delta)])
    case ItemAdded(item, outputIndex, _) =>
      var callId := FunctionCallId(item);
      if callId == "" then r
      else
        var tm := item.value.tool.value;
        Routing(
          r.buffers[callId := Extended(Named(BufferOf(r.buffers, callId), tm.name), tm.arguments)],
          if outputIndex.Some? then r.routes[outputIndex.value := callId] else r.routes)
    case ItemDone(item, _, _) =>
      var callId := FunctionCallId(item);
      if callId == "" || callId !in r.buffers then r
      else r.(buffers := r.buffers[callId := Finalized(r.buffers[callId], item.value.tool.value)])
    case _ => r
  }

  function RoutedAll(chunks: seq<Chunk>): Routing {
    if chunks == [] then UNROUTED
    else Routed(RoutedAll(chunks[..|chunks| - 1]), chunks[|chunks| - 1])
  }

  // ---------------------------------------------------------------- events

  datatype ResponsesState = ResponsesState(
    wire: Wire,
    routing: Routing,
    citations: seq<Citation>,
    sources: seq<string>,
    ended: bool)

  const START := ResponsesState(SILENT, UNROUTED, [], [], false)

  ghost function Flush(buffers: Buffers<string>): seq<ToolCall> {
    LexOrder();
    FlushedCalls(SortedKeys(buffers.Keys, LexLess), buffers, true)
  }

  /** Sources with a URL not seen before. */
  function WithSources(known: seq<string>, urls: seq<string>): seq<string> {
    if urls == [] then known
    else
      var n := |urls| - 1;
      var before := WithSources(known, urls[..n]);
      if urls[n] == "" || urls[n] in before then before else before + [urls[n]]
  }

  function Numbered(urls: seq<string>): (citations: seq<Citation>) {
    seq(|urls|, i requires 0 <= i < |urls| => Citation(urls[i], i + 1))
  }

  function SendCitations(w: Wire, citations: seq<Citation>): Wire {
    if citations != [] then Send(w, Annotations(citations)) else w
  }

  function SendActivity(w: Wire, activity: bool): Wire {
    if activity then Send(w, ServerTools) else w
  }

  /** What is sent of a completed response before its tool calls. */
  function LastWords(w: Wire, citations: seq<Citation>, usage: Option<TokenUsage>): Wire {
    var cited := SendCitations(Closed(w), citations);
    if usage.Some? then SendUsage(cited, usage.value) else cited
  }

  function AllCitations(s: ResponsesState): seq<Citation> {
    if s.citations == [] then Numbered(s.sources) else s.citations
  }

  /** Citations, usage and tool calls of a completed response; with tool calls it ends. */
  ghost function OnCompleted(s: ResponsesState, usage: Option<TokenUsage>): ResponsesState {
    var citations := AllCitations(s);
    var used := LastWords(s.wire, citations, usage);
    var calls := Flush(s.routing.buffers);
    s.(wire := if calls != [] then Send(used, ToolCalls(calls)) else used, citations := citations, ended := calls != [])
  }

  ghost function OnChunk(s: ResponsesState, chunk: Chunk): ResponsesState {
    match chunk
    case Failure => s.(wire := Send(s.wire, Error), ended := true)
    case TextDelta(delta) => s.(wire := SendText(Closed(s.wire), Value(delta)))
    case ReasoningText(delta, signature) => s.(wire := Sign(SendReasoning(s.wire, Value(delta)), Value(signature)))
    case ReasoningProgress(signature) => s.(wire := Sign(s.wire, Value(signature)))
    case AnnotationAdded(citation) =>
      if citation.Some? then s.(citations := s.citations + [Citation(citation.value, |s.citations| + 1)]) else s
    case TextDone => s.(wire := SendCitations(s.wire, s.citations))
    case CodeDone(activity) => s.(wire := SendActivity(s.wire, activity))
    case ItemAdded(_, _, activity) => s.(wire := SendActivity(s.wire, activity))
    case ItemDone(_, sources, activity) =>
      s.(sources := WithSources(s.sources, sources), wire := SendActivity(s.wire, activity))
    case Completed(usage) => OnCompleted(s, usage)
    case _ => s
  }

  ghost function Step(s: ResponsesState, chunk: Chunk): ResponsesState {
    if s.ended then s else OnChunk(s, chunk).(routing := Routed(s.routing, chunk))
  }

  ghost function Run(chunks: seq<Chunk>): ResponsesState {
    if chunks == [] then START
    else Step(Run(chunks[..|chunks| - 1]), chunks[|chunks| - 1])
  }

  /** The events of a stream that ends when its chunks do. */
  ghost function ResponsesEvents(chunks: seq<Chunk>): Events {
    var s := Run(chunks);
    if s.ended then s.wire.sent
    else
      var calls := Flush(s.routing.buffers);
      s.wire.sent + [if calls != [] then ToolCalls(calls) else End]
  }

  lemma {:induction false} EndedStays(chunks: seq<Chunk>, n: nat)
    requires n <= |chunks| && Run(chunks[..n]).ended
    ensures Run(chunks) == Run(chunks[..n])
    decreases |chunks|
  {
    if n < |chunks| {
      var m := |chunks| - 1;
      assert chunks[..m][..n] == chunks[..n];
      EndedStays(chunks[..m], n);
    } else {
      assert chunks[..n] == chunks;
    }
  }

  // ---------------------------------------------------------------- the event loop

  method RouteArguments(chunk: Chunk, buffers: Buffers<string>, routes: map<int, string>) returns (buffers': Buffers<string>)
    requires chunk.ArgumentsDelta?
    ensures Routing(buffers', routes) == Routed(Routing(buffers, routes), chunk)
    ensures forall callId :: AppendsDelta(buffers, buffers', routes, chunk, callId)
  {
    forall callId ensures AppendsDelta(buffers, Routed(Routing(buffers, routes), chunk).buffers, routes, chunk, callId) {
      DeltaReaches(Routing(buffers, routes), chunk, callId);
    }
    buffers' := buffers;
    if chunk.item.Some? && chunk.item.value.tool.Some? {
      var tm := chunk.item.value.tool.value;
      var callId := "";
      if tm.callId.Some? { callId := tm.callId.value; }
      if callId != "" {
        var buffer := BufferOf(buffers, callId);
        if tm.name.Some? { buffer := buffer.(name := tm.name.value); }
        if chunk.delta.Some? { buffer := buffer.(arguments := buffer.arguments + chunk.delta.value); }
        buffers' := buffers[callId := buffer];
      }
    } else if chunk.outputIndex.Some? && chunk.delta.Some? {
      if chunk.outputIndex.value in routes {
        var callId := routes[chunk.outputIndex.value];
        var buffer := BufferOf(buffers, callId);
        buffers' := buffers[callId := buffer.(arguments := buffer.arguments + chunk.delta.value)];
      }
    }
  }

  method RegisterItem(chunk: Chunk, buffers: Buffers<string>, routes: map<int, string>)
    returns (buffers': Buffers<string>, routes': map<int, string>)
    requires chunk.ItemAdded?
    ensures Routing(buffers', routes') == Routed(Routing(buffers, routes), chunk)
    ensures forall callId :: AppendsItem(buffers, buffers', chunk, callId)
  {
    forall callId ensures AppendsItem(buffers, Routed(Routing(buffers, routes), chunk).buffers, chunk, callId) {
      AddedReaches(Routing(buffers, routes), chunk, callId);
    }
    buffers', routes' := buffers, routes;
    var callId := FunctionCallId(chunk.item);
    if callId != "" {
      var tm := chunk.item.value.tool.value;
      if chunk.outputIndex.Some? { routes' := routes[chunk.outputIndex.value := callId]; }
      var buffer := BufferOf(buffers, callId);
      if tm.name.Some? { buffer := buffer.(name := tm.name.value); }
      if tm.arguments.Some? { buffer := buffer.(arguments := buffer.arguments + tm.arguments.value); }
      buffers' := buffers[callId := buffer];
    }
  }

  method FinishItem(chunk: Chunk, buffers: Buffers<string>, ghost routes: map<int, string>) returns (buffers': Buffers<string>)
    requires chunk.ItemDone?
    ensures Routing(buffers', routes) == Routed(Routing(buffers, routes), chunk)
  {
    buffers' := buffers;
    var callId := FunctionCallId(chunk.item);
    if callId != "" && callId in buffers {
      var tm := chunk.item.value.tool.value;
      var buffer := buffers[callId];
      if tm.name.Some? && tm.name.value != "" { buffer := buffer.(name := tm.name.value); }
      if tm.arguments.Some? && tm.arguments.value != "" { buffer := buffer.(arguments := tm.arguments.value); }
      buffers' := buffers[callId := buffer];
    }
  }

  method AppendSources(known: seq<string>, urls: seq<string>) returns (sources: seq<string>)
    ensures sources == WithSources(known, urls)
  {
    sources := known;
    for i := 0 to |urls|
      invariant sources == WithSources(known, urls[..i])
    {
      assert urls[..i + 1][..i] == urls[..i];
      if urls[i] == "" || urls[i] in sources { continue; }
      sources := sources + [urls[i]];
    }
    assert urls[..|urls|] == urls;
  }

  /** Sends the last of a completed response; with tool calls it has ended. */
  method Complete(usage: Option<TokenUsage>, reasoning: ReasoningAccumulator, output: Events, buffers: Buffers<string>,
                  citations: seq<Citation>, sources: seq<string>, ghost routes: map<int, string>)
    returns (output': Events, citations': seq<Citation>, ended: bool)
    modifies reasoning
    ensures ResponsesState(Wire(output', reasoning.Value()), Routing(buffers, routes), citations', sources, ended) ==
            OnCompleted(ResponsesState(Wire(output, old(reasoning.Value())), Routing(buffers, routes), citations, sources, false), usage)
  {
    citations' := citations;
    output' := reasoning.EmitEnd(output);
    if |citations| == 0 && |sources| > 0 { citations' := Numbered(sources); }
    if |citations'| > 0 { output' := output' + [Annotations(citations')]; }
    if usage.Some? && (usage.value.inputTokens > 0 || usage.value.outputTokens > 0) {
      output' := output' + [Usage(usage.value)];
    }
    LexOrder();
    var toolCalls := FlushToolCallBuffers(buffers, LexLess, true);
    ended := |toolCalls| > 0;
    if ended { output' := output' + [ToolCalls(toolCalls)]; }
  }

  predicate AboutText(chunk: Chunk) {
    || chunk.TextDelta? || chunk.ReasoningText? || chunk.ReasoningProgress?
    || chunk.AnnotationAdded? || chunk.TextDone? || chunk.Other?
  }

  predicate AboutTools(chunk: Chunk) {
    chunk.ArgumentsDelta? || chunk.CodeDone? || chunk.ItemAdded? || chunk.ItemDone?
  }

  method ReadText(chunk: Chunk, reasoning: ReasoningAccumulator, output: Events, citations: seq<Citation>, ghost s: ResponsesState)
    returns (output': Events, citations': seq<Citation>)
    requires AboutText(chunk) && !s.ended && s.wire == Wire(output, reasoning.Value()) && s.citations == citations
    modifies reasoning
    ensures Step(s, chunk) == s.(wire := Wire(output', reasoning.Value()), citations := citations')
  {
    output', citations' := output, citations;
    match chunk
    case TextDelta(delta) =>
      output' := reasoning.EmitEnd(output);
      if delta.Some? && delta.value != "" { output' := output' + [Text(delta.value)]; }
    case ReasoningText(delta, signature) =>
      if delta.Some? && delta.value != "" {
        output' := output + [ReasoningDelta(delta.value)];
        reasoning.buffer := reasoning.buffer + delta.value;
      }
      if signature.Some? && signature.value != "" { reasoning.signature := signature.value; }
    case ReasoningProgress(signature) =>
      if signature.Some? && signature.value != "" { reasoning.signature := signature.value; }
    case AnnotationAdded(citation) =>
      if citation.Some? { citations' := citations + [Citation(citation.value, |citations| + 1)]; }
    case TextDone =>
      if |citations| > 0 { output' := output + [Annotations(citations)]; }
    case Other =>
  }

  method ReadTool(chunk: Chunk, output: Events, buffers: Buffers<string>, routes: map<int, string>, sources: seq<string>,
                  ghost s: ResponsesState)
    returns (output': Events, buffers': Buffers<string>, routes': map<int, string>, sources': seq<string>)
    requires AboutTools(chunk) && !s.ended
    requires s.wire.sent == output && s.routing == Routing(buffers, routes) && s.sources == sources
    ensures Step(s, chunk) == s.(wire := s.wire.(sent := output'), routing := Routing(buffers', routes'), sources := sources')
  {
    output', buffers', routes', sources' := output, buffers, routes, sources;
    match chunk
    case ArgumentsDelta(_, _, _) =>
      buffers' := RouteArguments(chunk, buffers, routes);
    case CodeDone(activity) =>
      if activity { output' := output + [ServerTools]; }
    case ItemAdded(_, _, activity) =>
      if activity { output' := output + [ServerTools]; }
      buffers', routes' := RegisterItem(chunk, buffers, routes);
    case ItemDone(_, urls, activity) =>
      sources' := AppendSources(sources, urls);
      if activity { output' := output + [ServerTools]; }
      buffers' := FinishItem(chunk, buffers, routes);
  }

  method ReadChunks(chunks: seq<Chunk>) returns (output: Events)
    ensures output == ResponsesEvents(chunks)
  {
    var buffers: Buffers<string> := map[];
    var routes: map<int, string> := map[];
    var citations: seq<Citation> := [];
    var sources: seq<string> := [];
    var reasoning := new ReasoningAccumulator();
    output := [];
    for i := 0 to |chunks|
      invariant ResponsesState(Wire(output, reasoning.Value()), Routing(buffers, routes), citations, sources, false) == Run(chunks[..i])
    {
      ghost var s := Run(chunks[..i]);
      RunSnoc(chunks, i);
      if chunks[i].Failure? {
        EndedStays(chunks, i + 1);
        return output + [Error];
      } else if chunks[i].Completed? {
        var ended;
        output, citations, ended := Complete(chunks[i].usage, reasoning, output, buffers, citations, sources, routes);
        if ended {
          EndedStays(chunks, i + 1);
          return;
        }
      } else if AboutText(chunks[i]) {
        output, citations := ReadText(chunks[i], reasoning, output, citations, s);
      } else {
        output, buffers, routes, sources := ReadTool(chunks[i], output, buffers, routes, sources, s);
      }
    }
    assert chunks[..|chunks|] == chunks;
    output := FinishStream(output, buffers);
  }

  method FinishStream(output: Events, buffers: Buffers<string>) returns (output': Events)
    ensures var calls := Flush(buffers); output' == output + [if calls != [] then ToolCalls(calls) else End]
  {
    LexOrder();
    var toolCalls := FlushToolCallBuffers(buffers, LexLess, true);
    if |toolCalls| > 0 { return output + [ToolCalls(toolCalls)]; }
    output' := output + [End];
  }

  lemma RunSnoc(chunks: seq<Chunk>, i: nat)
    requires i < |chunks|
    ensures Run(chunks[..i + 1]) == Step(Run(chunks[..i]), chunks[i])
  {
    assert chunks[..i + 1][..i] == chunks[..i];
  }

  /** The request cannot be built or is refused, or the provider sends chunks. */
  method StreamResponses(response: Option<seq<Chunk>>) returns (output: Events)
    ensures response.None? ==> output == [Error]
    ensures response.Some? ==> output == ResponsesEvents(response.value)
    ensures WellFormed(output)
    ensures response.Some? ==> Delivers(output, response.value)
  {
    TerminalFinishes(SILENT, Error);
    if response.None? { return [Error]; }
    ghost var last := AllEvents(response.value);
    ResponsesEventsAreWellFormed(response.value);
    output := ReadChunks(response.value);
  }

  // ---------------------------------------------------------------- events are well formed

  /** Before the end the stream is open; at the end it has been finished. */
  predicate Sound(s: ResponsesState) {
    if s.ended then WellFormed(s.wire.sent) else Open(s.wire)
  }

  lemma CitationsKeepOpen(w: Wire, citations: seq<Citation>)
    requires Open(w)
    ensures Open(SendCitations(w, citations))
  {
    SendKeepsOpen(w, Annotations(citations));
  }

  lemma ActivityKeepsOpen(w: Wire, activity: bool)
    requires Open(w)
    ensures Open(SendActivity(w, activity))
  {
    SendKeepsOpen(w, ServerTools);
  }

  lemma UsageKeepsOpen(w: Wire, usage: TokenUsage)
    requires Open(w)
    ensures Open(SendUsage(w, usage))
  {
    SendKeepsOpen(w, Usage(usage));
  }

  lemma CompletedIsSound(s: ResponsesState, usage: Option<TokenUsage>)
    requires Open(s.wire)
    ensures Sound(OnCompleted(s, usage))
  {
    LastWordsKeepOpen(s.wire, AllCitations(s), usage);
    TerminalFinishes(LastWords(s.wire, AllCitations(s), usage), ToolCalls(Flush(s.routing.buffers)));
  }

  lemma LastWordsKeepOpen(w: Wire, citations: seq<Citation>, usage: Option<TokenUsage>)
    requires Open(w)
    ensures Open(LastWords(w, citations, usage))
  {
    ClosedKeepsOpen(w);
    CitationsKeepOpen(Closed(w), citations);
    if usage.Some? { UsageKeepsOpen(SendCitations(Closed(w), citations), usage.value); }
  }

  lemma TextKeepsOpen(w: Wire, text: string)
    requires Open(w)
    ensures Open(SendText(Closed(w), text))
  {
    ClosedKeepsOpen(w);
    SendKeepsOpen(Closed(w), Text(text));
  }

  lemma ChunkIsSound(s: ResponsesState, chunk: Chunk)
    requires Open(s.wire) && !s.ended
    ensures Sound(OnChunk(s, chunk))
  {
    match chunk
    case Failure => TerminalFinishes(s.wire, Error);
    case TextDelta(delta) => TextKeepsOpen(s.wire, Value(delta));
    case ReasoningText(delta, signature) => SendReasoningKeepsOpen(s.wire, Value(delta));
    case TextDone => CitationsKeepOpen(s.wire, s.citations);
    case CodeDone(activity) => ActivityKeepsOpen(s.wire, activity);
    case ItemAdded(_, _, activity) => ActivityKeepsOpen(s.wire, activity);
    case ItemDone(_, _, activity) => ActivityKeepsOpen(s.wire, activity);
    case Completed(usage) => CompletedIsSound(s, usage);
    case _ =>
  }

  lemma {:induction false} RunIsSound(chunks: seq<Chunk>)
    ensures Sound(Run(chunks))
  {
    if chunks != [] {
      var n := |chunks| - 1;
      RunIsSound(chunks[..n]);
      if !Run(chunks[..n]).ended { ChunkIsSound(Run(chunks[..n]), chunks[n]); }
    }
  }

  /** Every stream ends in exactly one terminal event, with its reasoning in order. */
  lemma ResponsesEventsAreWellFormed(chunks: seq<Chunk>)
    ensures WellFormed(ResponsesEvents(chunks))
  {
    var s := Run(chunks);
    RunIsSound(chunks);
    var calls := Flush(s.routing.buffers);
    if !s.ended { TerminalFinishes(s.wire, if calls != [] then ToolCalls(calls) else End); }
  }

  // ---------------------------------------------------------------- orphan deltas

  predicate Registers(chunk: Chunk, index: int) {
    chunk.ItemAdded? && FunctionCallId(chunk.item) != "" && chunk.outputIndex == Some(index)
  }

  predicate Registered(chunks: seq<Chunk>, index: int) {
    exists i :: 0 <= i < |chunks| && Registers(chunks[i], index)
  }

  /** An argument delta without an item whose output index no earlier function call has. */
  predicate Orphan(before: seq<Chunk>, chunk: Chunk) {
    && chunk.ArgumentsDelta? && !HasTool(chunk.item)
    && (chunk.outputIndex.Some? ==> !Registered(before, chunk.outputIndex.value))
  }

  function WithoutOrphans(chunks: seq<Chunk>): seq<Chunk> {
    if chunks == [] then []
    else
      var n := |chunks| - 1;
      var kept := WithoutOrphans(chunks[..n]);
      if Orphan(chunks[..n], chunks[n]) then kept else kept + [chunks[n]]
  }

  lemma {:induction false} RoutesAreRegistered(chunks: seq<Chunk>, index: int)
    ensures index in RoutedAll(chunks).routes <==> Registered(chunks, index)
  {
    if chunks != [] {
      var n := |chunks| - 1;
      RoutesAreRegistered(chunks[..n], index);
      RegisteredSnoc(chunks, index);
    }
  }

  lemma RegisteredSnoc(chunks: seq<Chunk>, index: int)
    requires chunks != []
    ensures var n := |chunks| - 1; Registered(chunks, index) <==> Registered(chunks[..n], index) || Registers(chunks[n], index)
  {
    var n := |chunks| - 1;
    if Registered(chunks[..n], index) {
      var i :| 0 <= i < n && Registers(chunks[..n][i], index);
      assert Registers(chunks[i], index);
    }
    if i :| 0 <= i < n && Registers(chunks[i], index) { assert Registers(chunks[..n][i], index); }
  }

  /** A run that is not over has routed all its chunks. */
  lemma {:induction false} OpenRunsRouteAll(chunks: seq<Chunk>)
    ensures !Run(chunks).ended ==> Run(chunks).routing == RoutedAll(chunks)
  {
    if chunks != [] {
      var n := |chunks| - 1;
      OpenRunsRouteAll(chunks[..n]);
      RunRoutes(chunks);
    }
  }

  lemma RunRoutes(chunks: seq<Chunk>)
    requires chunks != []
    ensures var n := |chunks| - 1;
            && (Run(chunks[..n]).ended ==> Run(chunks) == Run(chunks[..n]))
            && (!Run(chunks[..n]).ended ==> Run(chunks).routing == Routed(Run(chunks[..n]).routing, chunks[n]))
  {
  }

  lemma OrphanDoesNothing(chunks: seq<Chunk>)
    requires chunks != [] && Orphan(chunks[..|chunks| - 1], chunks[|chunks| - 1])
    ensures Run(chunks) == Run(chunks[..|chunks| - 1])
  {
    var n := |chunks| - 1;
    OpenRunsRouteAll(chunks[..n]);
    if chunks[n].outputIndex.Some? { RoutesAreRegistered(chunks[..n], chunks[n].outputIndex.value); }
    OrphanStep(Run(chunks[..n]), chunks[n]);
  }

  lemma OrphanStep(s: ResponsesState, chunk: Chunk)
    requires chunk.ArgumentsDelta? && !HasTool(chunk.item)
    requires !s.ended && chunk.outputIndex.Some? ==> chunk.outputIndex.value !in s.routing.routes
    ensures Step(s, chunk) == s
  {
  }

  /** Deleting the orphan deltas leaves every event of the stream unchanged, the tool calls
      included. */
  lemma OrphansChangeNothing(chunks: seq<Chunk>)
    ensures ResponsesEvents(WithoutOrphans(chunks)) == ResponsesEvents(chunks)
  {
    OrphansLeaveTheRun(chunks);
  }

  lemma {:induction false} OrphansLeaveTheRun(chunks: seq<Chunk>)
    ensures Run(WithoutOrphans(chunks)) == Run(chunks)
  {
    if chunks != [] {
      var n := |chunks| - 1;
      OrphansLeaveTheRun(chunks[..n]);
      if Orphan(chunks[..n], chunks[n]) {
        OrphanDoesNothing(chunks);
      } else {
        assert chunks[..n] + [chunks[n]] == chunks;
      }
    }
  }

  // ---------------------------------------------------------------- interleaving

  /** The output indexes that function calls with this ID have. */
  function IndexesOf(chunks: seq<Chunk>, callId: string): set<int> {
    set i | 0 <= i < |chunks| && chunks[i].ItemAdded? && chunks[i].outputIndex.Some? && FunctionCallId(chunks[i].item) == callId
      :: chunks[i].outputIndex.value
  }

  /** The chunks of one call, when it has these output indexes. */
  predicate Concerns(chunk: Chunk, callId: string, indexes: set<int>) {
    match chunk
    case ArgumentsDelta(item, outputIndex, _) =>
      if HasTool(item) then Value(item.value.tool.value.callId) == callId
      else outputIndex.Some? && outputIndex.value in indexes
    case ItemAdded(item, _, _) => FunctionCallId(item) == callId
    case ItemDone(item, _, _) => FunctionCallId(item) == callId
    case _ => false
  }

  function Own(chunks: seq<Chunk>, callId: string, indexes: set<int>): seq<Chunk> {
    if chunks == [] then []
    else
      var n := |chunks| - 1;
      var before := Own(chunks[..n], callId, indexes);
      if Concerns(chunks[n], callId, indexes) then before + [chunks[n]] else before
  }

  /** A registration of an index by this call if and only if the index is one of these. */
  predicate OwnsIndex(chunk: Chunk, callId: string, indexes: set<int>) {
    chunk.ItemAdded? && chunk.outputIndex.Some? && FunctionCallId(chunk.item) != "" ==>
      (chunk.outputIndex.value in indexes <==> FunctionCallId(chunk.item) == callId)
  }

  /** Only this call has these indexes. */
  predicate OwnsIndexes(chunks: seq<Chunk>, callId: string, indexes: set<int>) {
    forall i :: 0 <= i < |chunks| ==> OwnsIndex(chunks[i], callId, indexes)
  }

  /** The two routings agree on one call and its indexes. */
  predicate Agree(r: Routing, own: Routing, callId: string, indexes: set<int>) {
    && Lookup(r.buffers, callId) == Lookup(own.buffers, callId)
    && (forall j :: j in indexes ==> Lookup(r.routes, j) == Lookup(own.routes, j))
    && (forall j :: j in r.routes ==> (j in indexes <==> r.routes[j] == callId))
  }

  lemma OthersDoNotInterfere(r: Routing, own: Routing, chunk: Chunk, callId: string, indexes: set<int>)
    requires callId != "" && Agree(r, own, callId, indexes)
    requires OwnsIndex(chunk, callId, indexes) && !Concerns(chunk, callId, indexes)
    ensures Agree(Routed(r, chunk), own, callId, indexes)
  {
    if chunk.ArgumentsDelta? { OtherTarget(r, own, chunk, callId, indexes); }
  }

  lemma OtherTarget(r: Routing, own: Routing, chunk: Chunk, callId: string, indexes: set<int>)
    requires callId != "" && Agree(r, own, callId, indexes)
    requires chunk.ArgumentsDelta? && !Concerns(chunk, callId, indexes)
    ensures DeltaTarget(chunk, r.routes) != Some(callId)
  {
    if !HasTool(chunk.item) && chunk.outputIndex.Some? {
      var j := chunk.outputIndex.value;
      assert j in r.routes ==> (j in indexes <==> r.routes[j] == callId);
    }
  }

  lemma OwnChunksDoTheSame(r: Routing, own: Routing, chunk: Chunk, callId: string, indexes: set<int>)
    requires callId != "" && Agree(r, own, callId, indexes)
    requires OwnsIndex(chunk, callId, indexes) && Concerns(chunk, callId, indexes)
    ensures Agree(Routed(r, chunk), Routed(own, chunk), callId, indexes)
  {
    if chunk.ArgumentsDelta? { DeltaDoesTheSame(r, own, chunk, callId, indexes); }
  }

  lemma DeltaDoesTheSame(r: Routing, own: Routing, chunk: Chunk, callId: string, indexes: set<int>)
    requires callId != "" && Agree(r, own, callId, indexes)
    requires chunk.ArgumentsDelta? && Concerns(chunk, callId, indexes)
    ensures Agree(Routed(r, chunk), Routed(own, chunk), callId, indexes)
  {
    OwnTarget(r, own, chunk, callId, indexes);
  }

  lemma OwnTarget(r: Routing, own: Routing, chunk: Chunk, callId: string, indexes: set<int>)
    requires callId != "" && Agree(r, own, callId, indexes)
    requires chunk.ArgumentsDelta? && Concerns(chunk, callId, indexes)
    ensures DeltaTarget(chunk, r.routes) == DeltaTarget(chunk, own.routes)
    ensures DeltaTarget(chunk, r.routes) == None || DeltaTarget(chunk, r.routes) == Some(callId)
  {
    if !HasTool(chunk.item) {
      var j := chunk.outputIndex.value;
      assert Lookup(r.routes, j) == Lookup(own.routes, j);
      assert j in r.routes ==> (j in indexes <==> r.routes[j] == callId);
    }
  }

  lemma {:induction false} InterleavingAgrees(chunks: seq<Chunk>, callId: string, indexes: set<int>)
    requires callId != "" && OwnsIndexes(chunks, callId, indexes)
    ensures Agree(RoutedAll(chunks), RoutedAll(Own(chunks, callId, indexes)), callId, indexes)
  {
    if chunks != [] {
      var n := |chunks| - 1;
      InterleavingAgrees(chunks[..n], callId, indexes);
      var r, own := RoutedAll(chunks[..n]), Own(chunks[..n], callId, indexes);
      if Concerns(chunks[n], callId, indexes) {
        OwnChunksDoTheSame(r, RoutedAll(own), chunks[n], callId, indexes);
        assert (own + [chunks[n]])[..|own|] == own;
      } else {
        OthersDoNotInterfere(r, RoutedAll(own), chunks[n], callId, indexes);
      }
    }
  }

  /** A call whose output indexes no other call has is put together from its own chunks only,
      in their order, whatever comes between them. */
  lemma CallsDoNotMix(chunks: seq<Chunk>, callId: string)
    requires callId != "" && OwnsIndexes(chunks, callId, IndexesOf(chunks, callId))
    ensures Lookup(RoutedAll(chunks).buffers, callId) ==
            Lookup(RoutedAll(Own(chunks, callId, IndexesOf(chunks, callId))).buffers, callId)
  {
    InterleavingAgrees(chunks, callId, IndexesOf(chunks, callId));
  }

  function Begin(callId: string, index: int): Chunk {
    ItemAdded(Some(Item(true, Some(ToolMessage(Some(callId), None, None)))), Some(index), false)
  }

  /** Without that, calls do mix: when a second call takes over an output index, a delta for
      it goes to the second call, although without the second call's chunks it would be the
      first one's. */
  lemma SharedIndexMixesCalls(a: string, b: string, index: int, arguments: string)
    requires a != "" && b != "" && a != b
    ensures var delta := ArgumentsDelta(None, Some(index), Some(arguments));
            var alone := RoutedAll([Begin(a, index)] + [delta]).buffers;
            var mixed := RoutedAll([Begin(a, index)] + [Begin(b, index)] + [delta]).buffers;
            && Lookup(alone, a) == Some(ToolCallBuffer(a, "", arguments))
            && Lookup(mixed, a) == Some(ToolCallBuffer(a, "", ""))
            && Lookup(mixed, b) == Some(ToolCallBuffer(b, "", arguments))
  {
    var delta := ArgumentsDelta(None, Some(index), Some(arguments));
    RoutedSnoc([], Begin(a, index));
    assert [] + [Begin(a, index)] == [Begin(a, index)];
    RoutedSnoc([Begin(a, index)], delta);
    RoutedSnoc([Begin(a, index)], Begin(b, index));
    RoutedSnoc([Begin(a, index)] + [Begin(b, index)], delta);
    assert "" + arguments == arguments;
  }

  // ---------------------------------------------------------------- shared indexes

  /** The function call registered last for an output index. */
  function Holder(chunks: seq<Chunk>, index: int): Option<string> {
    if chunks == [] then None
    else
      var n := |chunks| - 1;
      if Registers(chunks[n], index) then Some(FunctionCallId(chunks[n].item)) else Holder(chunks[..n], index)
  }

  predicate RegisteredBy(chunks: seq<Chunk>, callId: string, index: int) {
    exists i :: 0 <= i < |chunks| && Registers(chunks[i], index) && FunctionCallId(chunks[i].item) == callId
  }

  /** A delta for an index that this call had and another call has taken over. */
  predicate GoesElsewhere(before: seq<Chunk>, chunk: Chunk, callId: string) {
    && chunk.ArgumentsDelta? && !HasTool(chunk.item) && chunk.outputIndex.Some? && chunk.delta.Some?
    && RegisteredBy(before, callId, chunk.outputIndex.value)
    && Holder(before, chunk.outputIndex.value) != Some(callId)
  }

  predicate GivesFinalArguments(chunk: Chunk, callId: string) {
    chunk.ItemDone? && FunctionCallId(chunk.item) == callId != "" && Value(chunk.item.value.tool.value.arguments) != ""
  }

  /** How many characters have gone elsewhere since the call's arguments were last final. */
  function TakenOver(chunks: seq<Chunk>, callId: string): nat {
    if chunks == [] then 0
    else
      var n := |chunks| - 1;
      if GivesFinalArguments(chunks[n], callId) then 0
      else TakenOver(chunks[..n], callId) + if GoesElsewhere(chunks[..n], chunks[n], callId) then |chunks[n].delta.value| else 0
  }

  lemma {:induction false} HolderIsTheRoute(chunks: seq<Chunk>, index: int)
    ensures Lookup(RoutedAll(chunks).routes, index) == Holder(chunks, index)
  {
    if chunks != [] { HolderIsTheRoute(chunks[..|chunks| - 1], index); }
  }

  lemma RegisteredBySnoc(chunks: seq<Chunk>, callId: string, index: int)
    requires chunks != []
    ensures var n := |chunks| - 1;
            RegisteredBy(chunks, callId, index) <==>
            RegisteredBy(chunks[..n], callId, index) || (Registers(chunks[n], index) && FunctionCallId(chunks[n].item) == callId)
  {
    var n := |chunks| - 1;
    if RegisteredBy(chunks[..n], callId, index) {
      var i :| 0 <= i < n && Registers(chunks[..n][i], index) && FunctionCallId(chunks[..n][i].item) == callId;
      assert Registers(chunks[i], index);
    }
    if i :| 0 <= i < n && Registers(chunks[i], index) && FunctionCallId(chunks[i].item) == callId {
      assert Registers(chunks[..n][i], index);
    }
  }

  lemma {:induction false} HolderRegistered(chunks: seq<Chunk>, callId: string, index: int)
    ensures Holder(chunks, index) == Some(callId) ==> RegisteredBy(chunks, callId, index)
    ensures RegisteredBy(chunks, callId, index) ==> callId in RoutedAll(chunks).buffers
  {
    if chunks != [] {
      HolderRegistered(chunks[..|chunks| - 1], callId, index);
      RegisteredBySnoc(chunks, callId, index);
    }
  }

  /** In the call's own chunks it alone has the indexes that it registered. */
  lemma {:induction false} OwnRoutes(chunks: seq<Chunk>, callId: string, indexes: set<int>, index: int)
    requires callId != ""
    ensures OwnRoute(chunks, callId, indexes, index)
  {
    if chunks != [] {
      OwnRoutes(chunks[..|chunks| - 1], callId, indexes, index);
      OneMoreOwnRoute(chunks, callId, indexes, index);
    } else {
      NoOwnRoute(chunks, callId, indexes, index);
    }
  }

  predicate OwnRoute(chunks: seq<Chunk>, callId: string, indexes: set<int>, index: int) {
    Lookup(RoutedAll(Own(chunks, callId, indexes)).routes, index) ==
    if RegisteredBy(chunks, callId, index) then Some(callId) else None
  }

  lemma NoOwnRoute(chunks: seq<Chunk>, callId: string, indexes: set<int>, index: int)
    requires chunks == []
    ensures OwnRoute(chunks, callId, indexes, index)
  {
  }

  lemma OneMoreOwnRoute(chunks: seq<Chunk>, callId: string, indexes: set<int>, index: int)
    requires callId != "" && chunks != [] && OwnRoute(chunks[..|chunks| - 1], callId, indexes, index)
    ensures OwnRoute(chunks, callId, indexes, index)
  {
    var n := |chunks| - 1;
    RegisteredBySnoc(chunks, callId, index);
    RoutedSnoc(Own(chunks[..n], callId, indexes), chunks[n]);
    OneRoute(RoutedAll(Own(chunks[..n], callId, indexes)), chunks[n], index);
  }

  /** What one chunk does to the route of an index. */
  lemma OneRoute(r: Routing, chunk: Chunk, index: int)
    ensures Lookup(Routed(r, chunk).routes, index) ==
            if Registers(chunk, index) then Some(FunctionCallId(chunk.item)) else Lookup(r.routes, index)
  {
  }

  /** Two buffers of a call, the second with this many more characters. */
  predicate Longer(buffers: Buffers<string>, own: Buffers<string>, callId: string, more: nat) {
    && (callId in buffers <==> callId in own)
    && (callId !in buffers ==> more == 0)
    && (callId in buffers ==>
          && own[callId] == buffers[callId].(arguments := own[callId].arguments)
          && |own[callId].arguments| == |buffers[callId].arguments| + more
          && (more == 0 ==> own[callId] == buffers[callId]))
  }

  lemma DeltaLengthens(r: Routing, own: Routing, before: seq<Chunk>, chunk: Chunk, callId: string, indexes: set<int>, more: nat)
    requires callId != "" && Longer(r.buffers, own.buffers, callId, more)
    requires chunk.ArgumentsDelta? && !HasTool(chunk.item) && chunk.outputIndex.Some?
    requires var index := chunk.outputIndex.value;
             && Lookup(r.routes, index) == Holder(before, index)
             && Lookup(own.routes, index) == (if RegisteredBy(before, callId, index) then Some(callId) else None)
             && (Holder(before, index) == Some(callId) ==> RegisteredBy(before, callId, index))
             && (RegisteredBy(before, callId, index) ==> callId in r.buffers && index in indexes)
    ensures Longer(Routed(r, chunk).buffers, (if Concerns(chunk, callId, indexes) then Routed(own, chunk) else own).buffers, callId,
                   more + if GoesElsewhere(before, chunk, callId) then |chunk.delta.value| else 0)
  {
  }

  lemma OtherLengthens(r: Routing, own: Routing, before: seq<Chunk>, chunk: Chunk, callId: string, indexes: set<int>, more: nat)
    requires callId != "" && Longer(r.buffers, own.buffers, callId, more)
    requires chunk.ArgumentsDelta? ==> HasTool(chunk.item) || chunk.outputIndex.None?
    ensures Longer(Routed(r, chunk).buffers, (if Concerns(chunk, callId, indexes) then Routed(own, chunk) else own).buffers, callId,
                   if GivesFinalArguments(chunk, callId) then 0 else more)
  {
  }

  predicate Indexed(chunks: seq<Chunk>, callId: string, indexes: set<int>) {
    forall i :: 0 <= i < |chunks| && chunks[i].ItemAdded? && chunks[i].outputIndex.Some? && FunctionCallId(chunks[i].item) == callId ==>
      chunks[i].outputIndex.value in indexes
  }

  lemma {:induction false} OwnIsLonger(chunks: seq<Chunk>, callId: string, indexes: set<int>)
    requires callId != "" && Indexed(chunks, callId, indexes)
    ensures Longer(RoutedAll(chunks).buffers, RoutedAll(Own(chunks, callId, indexes)).buffers, callId, TakenOver(chunks, callId))
  {
    if chunks != [] {
      OwnIsLonger(chunks[..|chunks| - 1], callId, indexes);
      OneMoreIsLonger(chunks, callId, indexes);
    }
  }

  lemma OneMoreIsLonger(chunks: seq<Chunk>, callId: string, indexes: set<int>)
    requires callId != "" && chunks != [] && Indexed(chunks, callId, indexes)
    requires var before := chunks[..|chunks| - 1];
             Longer(RoutedAll(before).buffers, RoutedAll(Own(before, callId, indexes)).buffers, callId, TakenOver(before, callId))
    ensures Longer(RoutedAll(chunks).buffers, RoutedAll(Own(chunks, callId, indexes)).buffers, callId, TakenOver(chunks, callId))
  {
    var n := |chunks| - 1;
    var before, chunk := chunks[..n], chunks[n];
    var r, own, more := RoutedAll(before), RoutedAll(Own(before, callId, indexes)), TakenOver(before, callId);
    RoutedSnoc(Own(before, callId, indexes), chunk);
    if chunk.ArgumentsDelta? && !HasTool(chunk.item) && chunk.outputIndex.Some? {
      var index := chunk.outputIndex.value;
      HolderIsTheRoute(before, index);
      OwnRoutes(before, callId, indexes, index);
      HolderRegistered(before, callId, index);
      assert RegisteredBy(before, callId, index) ==> index in indexes;
      DeltaLengthens(r, own, before, chunk, callId, indexes, more);
    } else {
      OtherLengthens(r, own, before, chunk, callId, indexes, more);
    }
  }

  /** The exact condition: a call is put together as from its own chunks alone, with all deltas
      for its output indexes, if and only if nothing of these has gone to a call that took over
      an index since the arguments were last final. */
  lemma CallsDoNotMixExactly(chunks: seq<Chunk>, callId: string)
    requires callId != ""
    ensures Lookup(RoutedAll(chunks).buffers, callId) ==
            Lookup(RoutedAll(Own(chunks, callId, IndexesOf(chunks, callId))).buffers, callId) <==>
            TakenOver(chunks, callId) == 0
  {
    OwnIsLonger(chunks, callId, IndexesOf(chunks, callId));
  }

  lemma RoutedSnoc(chunks: seq<Chunk>, chunk: Chunk)
    ensures RoutedAll(chunks + [chunk]) == Routed(RoutedAll(chunks), chunk)
  {
    assert (chunks + [chunk])[..|chunks|] == chunks;
  }

  // ---------------------------------------------------------------- what the reader gets

  /** How many chunks are read before the stream ends. */
  ghost function ReadCount(chunks: seq<Chunk>): (n: nat)
    ensures n <= |chunks|
  {
    if chunks == [] then 0
    else if Run(chunks[..|chunks| - 1]).ended then ReadCount(chunks[..|chunks| - 1])
    else |chunks|
  }

  /** A failure ends the stream, and so does a completion after a function call with a name. */
  ghost predicate EndsStream(before: seq<Chunk>, chunk: Chunk) {
    chunk.Failure? || (chunk.Completed? && Flush(RoutedAll(before).buffers) != [])
  }

  /** There is something to complete with if some call has a name. */
  lemma EndsStreamMeans(before: seq<Chunk>, chunk: Chunk)
    ensures EndsStream(before, chunk) <==> chunk.Failure? || (chunk.Completed? && exists id :: IsNamed(before, id))
  {
    var ids := NamedOrNone(before);
  }

  /** One of the first k chunks ends the stream. */
  ghost predicate EndedBy(chunks: seq<Chunk>, k: nat)
    requires k <= |chunks|
  {
    exists m: nat :: m < k && EndsStream(chunks[..m], chunks[m])
  }

  lemma EndedByFront(chunks: seq<Chunk>, n: nat, k: nat)
    requires k <= n <= |chunks|
    ensures EndedBy(chunks[..n], k) <==> EndedBy(chunks, k)
  {
    assert forall m: nat :: m < k ==> chunks[..n][..m] == chunks[..m] && chunks[..n][m] == chunks[m];
  }

  lemma EndedBySnoc(chunks: seq<Chunk>)
    requires chunks != []
    ensures var n := |chunks| - 1; EndedBy(chunks, n + 1) <==> EndedBy(chunks, n) || EndsStream(chunks[..n], chunks[n])
  {
  }

  /** Chunk k is read exactly when no earlier chunk ends the stream. */
  lemma {:induction false} ReadUntilTheEnd(chunks: seq<Chunk>, k: nat)
    requires k < |chunks|
    ensures k < ReadCount(chunks) <==> !EndedBy(chunks, k)
  {
    var n := |chunks| - 1;
    EndedExactly(chunks[..n]);
    EndedByFront(chunks, n, n);
    EndedByFront(chunks, n, k);
    if k < n {
      ReadUntilTheEnd(chunks[..n], k);
      EndedByMore(chunks, k, n);
    }
  }

  lemma EndedByMore(chunks: seq<Chunk>, k: nat, n: nat)
    requires k <= n <= |chunks|
    ensures EndedBy(chunks, k) ==> EndedBy(chunks, n)
  {
  }

  lemma {:induction false} EndedExactly(chunks: seq<Chunk>)
    ensures Run(chunks).ended <==> EndedBy(chunks, |chunks|)
  {
    if chunks != [] {
      var n := |chunks| - 1;
      EndedExactly(chunks[..n]);
      OpenRunsRouteAll(chunks[..n]);
      EndedByFront(chunks, n, n);
      EndedBySnoc(chunks);
      EndsOneMore(Run(chunks[..n]), chunks[n]);
    }
  }

  lemma EndsOneMore(s: ResponsesState, chunk: Chunk)
    ensures Step(s, chunk).ended <==>
            s.ended || chunk.Failure? || (chunk.Completed? && Flush(s.routing.buffers) != [])
  {
  }

  /** How a stream that ended early did so. */
  ghost predicate EndedWith(s: ResponsesState, e: Event) {
    && s.wire.sent != [] && s.wire.sent[|s.wire.sent| - 1] == e
    && (e == Error || (Flush(s.routing.buffers) != [] && e == ToolCalls(Flush(s.routing.buffers))))
  }

  lemma StepEnds(s: ResponsesState, chunk: Chunk)
    requires !s.ended
    ensures var s' := Step(s, chunk); s'.ended ==> EndedWith(s', Error) || EndedWith(s', ToolCalls(Flush(s'.routing.buffers)))
  {
  }

  lemma {:induction false} RunEnds(chunks: seq<Chunk>)
    ensures var s := Run(chunks); s.ended ==> EndedWith(s, Error) || EndedWith(s, ToolCalls(Flush(s.routing.buffers)))
  {
    if chunks != [] {
      var n := |chunks| - 1;
      RunEnds(chunks[..n]);
      if !Run(chunks[..n]).ended { StepEnds(Run(chunks[..n]), chunks[n]); }
    }
  }

  lemma {:induction false} ReadChunksAreRouted(chunks: seq<Chunk>)
    ensures Run(chunks).routing == RoutedAll(chunks[..ReadCount(chunks)])
  {
    if chunks != [] {
      var n := |chunks| - 1;
      if Run(chunks[..n]).ended {
        ReadChunksAreRouted(chunks[..n]);
        assert chunks[..n][..ReadCount(chunks[..n])] == chunks[..ReadCount(chunks)];
      } else {
        OpenRunsRouteAll(chunks[..n]);
        RunRoutes(chunks);
        assert chunks[..|chunks|] == chunks;
      }
    }
  }

  /** Tool calls that are emitted are the named ones among those routed from all chunks
      that were read, and End means there were none. */
  lemma EmittedCallsAreTheRouted(chunks: seq<Chunk>)
    ensures var events := ResponsesEvents(chunks);
            var calls := Flush(RoutedAll(chunks[..ReadCount(chunks)]).buffers);
            && events != []
            && var last := events[|events| - 1];
               || last == Error
               || (last == ToolCalls(calls) && calls != [])
               || (last == End && calls == [])
  {
    ReadChunksAreRouted(chunks);
    RunEnds(chunks);
  }

  function ContentOf(chunk: Chunk): string {
    if chunk.TextDelta? then Value(chunk.delta) else ""
  }

  function ThoughtOf(chunk: Chunk): string {
    if chunk.ReasoningText? then Value(chunk.delta) else ""
  }

  function Contents(chunks: seq<Chunk>): string {
    if chunks == [] then "" else Contents(chunks[..|chunks| - 1]) + ContentOf(chunks[|chunks| - 1])
  }

  function Thoughts(chunks: seq<Chunk>): string {
    if chunks == [] then "" else Thoughts(chunks[..|chunks| - 1]) + ThoughtOf(chunks[|chunks| - 1])
  }

  lemma SilentText(w: Wire, e: Event)
    requires !e.Text?
    ensures TextOf(Send(w, e).sent) == TextOf(w.sent)
  {
    TextSnoc(w.sent, e);
  }

  lemma CompletedText(s: ResponsesState, usage: Option<TokenUsage>)
    ensures TextOf(OnCompleted(s, usage).wire.sent) == TextOf(s.wire.sent)
    ensures OnCompleted(s, usage).wire.reasoning.buffer == s.wire.reasoning.buffer
  {
    LastWordsText(s.wire, AllCitations(s), usage);
    SilentText(LastWords(s.wire, AllCitations(s), usage), ToolCalls(Flush(s.routing.buffers)));
  }

  lemma LastWordsText(w: Wire, citations: seq<Citation>, usage: Option<TokenUsage>)
    ensures TextOf(LastWords(w, citations, usage).sent) == TextOf(w.sent)
    ensures LastWords(w, citations, usage).reasoning == Closed(w).reasoning
    ensures Closed(w).reasoning.buffer == w.reasoning.buffer
  {
    ClosedText(w);
    CitationsText(Closed(w), citations);
    if usage.Some? { UsageText(SendCitations(Closed(w), citations), usage.value); }
  }

  lemma CitationsText(w: Wire, citations: seq<Citation>)
    ensures TextOf(SendCitations(w, citations).sent) == TextOf(w.sent)
    ensures SendCitations(w, citations).reasoning == w.reasoning
  {
    SilentText(w, Annotations(citations));
  }

  lemma ChunkText(s: ResponsesState, chunk: Chunk)
    requires !s.ended
    ensures TextOf(OnChunk(s, chunk).wire.sent) == TextOf(s.wire.sent) + ContentOf(chunk)
    ensures OnChunk(s, chunk).wire.reasoning.buffer == s.wire.reasoning.buffer + ThoughtOf(chunk)
  {
    match chunk
    case TextDelta(delta) => ContentTextAlways(s.wire, Value(delta));
    case ReasoningText(delta, _) => ThoughtText(s.wire, Value(delta));
    case Completed(usage) => CompletedText(s, usage);
    case _ => OtherText(s, chunk);
  }

  lemma OtherText(s: ResponsesState, chunk: Chunk)
    requires !s.ended && !chunk.TextDelta? && !chunk.ReasoningText? && !chunk.Completed?
    ensures TextOf(OnChunk(s, chunk).wire.sent) == TextOf(s.wire.sent)
    ensures OnChunk(s, chunk).wire.reasoning.buffer == s.wire.reasoning.buffer
  {
    SilentText(s.wire, if chunk.TextDone? then Annotations(s.citations) else if chunk.Failure? then Error else ServerTools);
  }

  lemma ContentTextAlways(w: Wire, text: string)
    ensures TextOf(SendText(Closed(w), text).sent) == TextOf(w.sent) + text
    ensures SendText(Closed(w), text).reasoning.buffer == w.reasoning.buffer
  {
    ClosedText(w);
    TextSnoc(Closed(w).sent, Text(text));
  }

  lemma {:induction false} RunText(chunks: seq<Chunk>)
    ensures var read := chunks[..ReadCount(chunks)];
            && TextOf(Run(chunks).wire.sent) == Contents(read)
            && Run(chunks).wire.reasoning.buffer == Thoughts(read)
  {
    if chunks != [] {
      var n := |chunks| - 1;
      RunText(chunks[..n]);
      if Run(chunks[..n]).ended {
        assert chunks[..n][..ReadCount(chunks[..n])] == chunks[..ReadCount(chunks)];
      } else {
        OpenReadsAll(chunks[..n]);
        ChunkText(Run(chunks[..n]), chunks[n]);
        assert chunks[..|chunks|] == chunks;
      }
    }
  }

  lemma OpenReadsAll(chunks: seq<Chunk>)
    requires !Run(chunks).ended
    ensures chunks[..ReadCount(chunks)] == chunks
  {
  }

  /** The reader gets exactly the text of the chunks that were read. */
  lemma TextArrives(chunks: seq<Chunk>)
    ensures TextOf(ResponsesEvents(chunks)) == Contents(chunks[..ReadCount(chunks)])
  {
    RunText(chunks);
    var s := Run(chunks);
    var calls := Flush(s.routing.buffers);
    TextSnoc(s.wire.sent, if calls != [] then ToolCalls(calls) else End);
  }

  // ---------------------------------------------------------------- reasoning left open

  predicate Thinks(chunk: Chunk) {
    ThoughtOf(chunk) != ""
  }

  /** A text delta, even an empty one, or a completion ends the reasoning before it. */
  predicate EndsReasoning(chunk: Chunk) {
    chunk.TextDelta? || chunk.Completed?
  }

  predicate HasThought(chunks: seq<Chunk>) {
    exists j :: 0 <= j < |chunks| && Thinks(chunks[j])
  }

  predicate HasClosing(chunks: seq<Chunk>) {
    exists j, k :: 0 <= j < k < |chunks| && Thinks(chunks[j]) && EndsReasoning(chunks[k])
  }

  lemma ChunkCloses(s: ResponsesState, chunk: Chunk)
    requires !s.ended
    ensures var r, r' := s.wire.reasoning, OnChunk(s, chunk).wire.reasoning;
            && (r'.buffer != "" <==> r.buffer != "" || Thinks(chunk))
            && (r'.complete <==> r.complete || (r.buffer != "" && EndsReasoning(chunk)))
  {
    ChunkText(s, chunk);
    if chunk.Completed? { CompletedCloses(s, chunk.usage); }
  }

  lemma CompletedCloses(s: ResponsesState, usage: Option<TokenUsage>)
    ensures OnCompleted(s, usage).wire.reasoning == Closed(s.wire).reasoning
  {
    LastWordsText(s.wire, AllCitations(s), usage);
  }

  lemma FrontIsRead(chunks: seq<Chunk>)
    requires chunks != [] && ReadCount(chunks) == |chunks|
    ensures var n := |chunks| - 1; !Run(chunks[..n]).ended && ReadCount(chunks[..n]) == n
  {
    OpenReadsAll(chunks[..|chunks| - 1]);
  }

  lemma {:induction false} RunCloses(chunks: seq<Chunk>)
    requires ReadCount(chunks) == |chunks|
    ensures Run(chunks).wire.reasoning.buffer != "" <==> HasThought(chunks)
    ensures Run(chunks).wire.reasoning.complete <==> HasClosing(chunks)
  {
    if chunks != [] {
      var n := |chunks| - 1;
      FrontIsRead(chunks);
      RunCloses(chunks[..n]);
      ChunkCloses(Run(chunks[..n]), chunks[n]);
      ThoughtSnoc(chunks);
    }
  }

  lemma ThoughtSnoc(chunks: seq<Chunk>)
    requires chunks != []
    ensures var n := |chunks| - 1;
            && (HasThought(chunks) <==> HasThought(chunks[..n]) || Thinks(chunks[n]))
            && (HasClosing(chunks) <==> HasClosing(chunks[..n]) || (HasThought(chunks[..n]) && EndsReasoning(chunks[n])))
  {
    var n := |chunks| - 1;
    var before := chunks[..n];
    forall j | 0 <= j < n ensures before[j] == chunks[j] { }
    if HasThought(before) {
      var j :| 0 <= j < n && Thinks(before[j]);
      assert Thinks(chunks[j]);
    }
    if HasClosing(before) {
      var j, k :| 0 <= j < k < n && Thinks(before[j]) && EndsReasoning(before[k]);
      assert Thinks(chunks[j]) && EndsReasoning(chunks[k]);
    }
    if j, k :| 0 <= j < k < |chunks| && Thinks(chunks[j]) && EndsReasoning(chunks[k]) {
      assert Thinks(before[j]);
    }
  }

  // ---------------------------------------------------------------- reasoning that is lost

  /** A chunk thinks after reasoning was closed. */
  predicate HasLateThought(chunks: seq<Chunk>) {
    exists m :: 0 <= m < |chunks| && LateAt(chunks, m)
  }

  predicate LateAt(chunks: seq<Chunk>, m: nat)
    requires m < |chunks|
  {
    Thinks(chunks[m]) && HasClosing(chunks[..m])
  }

  lemma LateSnoc(chunks: seq<Chunk>)
    requires chunks != []
    ensures HasLateThought(chunks) <==> HasLateThought(chunks[..|chunks| - 1]) || LateAt(chunks, |chunks| - 1)
  {
    var n := |chunks| - 1;
    var before := chunks[..n];
    forall m | 0 <= m < n ensures LateAt(before, m) <==> LateAt(chunks, m) { assert before[..m] == chunks[..m]; }
    if HasLateThought(before) {
      var m :| 0 <= m < n && LateAt(before, m);
      assert LateAt(chunks, m);
    }
  }

  lemma SilentTracks(w: Wire, send: bool, e: Event)
    requires Tracks(w) && !e.ReasoningEnd?
    ensures var w' := if send then Send(w, e) else w; Tracks(w') && (Late(w') <==> Late(w))
  {
    SendTracks(w, e);
  }

  lemma CompletedTracks(s: ResponsesState, usage: Option<TokenUsage>)
    requires Tracks(s.wire)
    ensures Tracks(OnCompleted(s, usage).wire) && (Late(OnCompleted(s, usage).wire) <==> Late(s.wire))
  {
    LastWordsTrack(s.wire, AllCitations(s), usage);
    SendTracks(LastWords(s.wire, AllCitations(s), usage), ToolCalls(Flush(s.routing.buffers)));
  }

  lemma LastWordsTrack(w: Wire, citations: seq<Citation>, usage: Option<TokenUsage>)
    requires Tracks(w)
    ensures Tracks(LastWords(w, citations, usage)) && (Late(LastWords(w, citations, usage)) <==> Late(w))
  {
    ClosedTracks(w);
    SilentTracks(Closed(w), citations != [], Annotations(citations));
    if usage.Some? { UsageTracks(SendCitations(Closed(w), citations), usage.value); }
  }

  lemma ChunkTracks(s: ResponsesState, chunk: Chunk)
    requires !s.ended && Tracks(s.wire)
    ensures var w, w' := s.wire, OnChunk(s, chunk).wire;
            Tracks(w') && (Late(w') <==> Late(w) || (Thinks(chunk) && w.reasoning.complete))
  {
    match chunk
    case TextDelta(delta) => TextTracks(s.wire, Value(delta));
    case ReasoningText(delta, _) => ThoughtTracks(s.wire, Value(delta));
    case Completed(usage) => CompletedTracks(s, usage);
    case _ => OtherTracks(s, chunk);
  }

  lemma OtherTracks(s: ResponsesState, chunk: Chunk)
    requires !s.ended && Tracks(s.wire) && !chunk.TextDelta? && !chunk.ReasoningText? && !chunk.Completed?
    ensures var w, w' := s.wire, OnChunk(s, chunk).wire; Tracks(w') && (Late(w') <==> Late(w))
  {
    SendTracks(s.wire, if chunk.TextDone? then Annotations(s.citations) else if chunk.Failure? then Error else ServerTools);
  }

  lemma {:induction false} RunTracks(chunks: seq<Chunk>)
    requires ReadCount(chunks) == |chunks|
    ensures Tracks(Run(chunks).wire) && (Late(Run(chunks).wire) <==> HasLateThought(chunks))
  {
    if chunks != [] {
      var n := |chunks| - 1;
      FrontIsRead(chunks);
      RunTracks(chunks[..n]);
      RunCloses(chunks[..n]);
      ChunkTracks(Run(chunks[..n]), chunks[n]);
      LateSnoc(chunks);
    }
  }

  /** The state of a stream before its terminal event. */
  lemma BeforeTheEnd(chunks: seq<Chunk>) returns (w: Wire, e: Event)
    requires ReadCount(chunks) == |chunks|
    ensures Open(w) && Tracks(w) && Terminal(e) && ResponsesEvents(chunks) == w.sent + [e]
    ensures w.reasoning.buffer == Run(chunks).wire.reasoning.buffer
    ensures w.reasoning.complete == Run(chunks).wire.reasoning.complete && (Late(w) <==> Late(Run(chunks).wire))
  {
    var s := Run(chunks);
    RunIsSound(chunks);
    RunTracks(chunks);
    if !s.ended {
      var calls := Flush(s.routing.buffers);
      w, e := s.wire, if calls != [] then ToolCalls(calls) else End;
    } else {
      FrontIsRead(chunks);
      var n := |chunks| - 1;
      RunIsSound(chunks[..n]);
      RunTracks(chunks[..n]);
      w, e := BeforeTheLast(Run(chunks[..n]), chunks[n]);
      SendTracks(w, e);
    }
  }

  lemma BeforeTheLast(s: ResponsesState, chunk: Chunk) returns (w: Wire, e: Event)
    requires !s.ended && Open(s.wire) && Tracks(s.wire) && Step(s, chunk).ended
    ensures Open(w) && Tracks(w) && Terminal(e) && Step(s, chunk).wire == Send(w, e)
  {
    if chunk.Failure? {
      w, e := s.wire, Error;
    } else {
      LastWordsKeepOpen(s.wire, AllCitations(s), chunk.usage);
      LastWordsTrack(s.wire, AllCitations(s), chunk.usage);
      w, e := LastWords(s.wire, AllCitations(s), chunk.usage), ToolCalls(Flush(s.routing.buffers));
    }
  }

  /** Reasoning is lost, that is, sent and in no reasoning end, exactly when some of it came
      after it had been closed, or when neither text nor a completion that was read came after
      it began. */
  lemma ReasoningIsLostExactly(chunks: seq<Chunk>)
    ensures var read := chunks[..ReadCount(chunks)];
            !ReasoningComplete(ResponsesEvents(chunks)) <==>
            HasLateThought(read) || (HasThought(read) && !HasClosing(read))
  {
    var read := chunks[..ReadCount(chunks)];
    ReadIsAll(chunks);
    RunCloses(read);
    RunTracks(read);
    var w, e := BeforeTheEnd(read);
    CompleteWhenEnded(w, e);
  }

  /** What is not read changes nothing. */
  lemma {:induction false} ReadIsAll(chunks: seq<Chunk>)
    ensures var read := chunks[..ReadCount(chunks)];
            ReadCount(read) == |read| && Run(read) == Run(chunks)
  {
    if chunks != [] {
      var n := |chunks| - 1;
      if Run(chunks[..n]).ended {
        ReadIsAll(chunks[..n]);
        assert chunks[..n][..ReadCount(chunks[..n])] == chunks[..ReadCount(chunks)];
        RunRoutes(chunks);
      } else {
        assert chunks[..|chunks|] == chunks;
      }
    }
  }

  function OnlyText(text: string): Chunk {
    TextDelta(Some(text))
  }

  function OnlyThought(thought: string): Chunk {
    ReasoningText(Some(thought), None)
  }

  lemma StepSnoc(chunks: seq<Chunk>, chunk: Chunk)
    ensures Run(chunks + [chunk]) == Step(Run(chunks), chunk)
  {
    assert (chunks + [chunk])[..|chunks|] == chunks;
  }

  /** A state in which only text and reasoning were sent. */
  function Talked(sent: Events, reasoning: Reasoning): ResponsesState {
    ResponsesState(Wire(sent, reasoning), UNROUTED, [], [], false)
  }

  lemma AfterThought(sent: Events, r: Reasoning, thought: string)
    requires thought != ""
    ensures Step(Talked(sent, r), OnlyThought(thought)) ==
            Talked(sent + [ReasoningDelta(thought)], r.(buffer := r.buffer + thought))
  {
  }

  lemma AfterText(sent: Events, r: Reasoning, text: string)
    requires text != "" && Unsent(r)
    ensures Step(Talked(sent, r), OnlyText(text)) ==
            Talked(sent + [ReasoningEnd(r.buffer, r.signature)] + [Text(text)], r.(complete := true))
  {
  }

  lemma SecondThoughtsRun(first: string, text: string, second: string)
    requires first != "" && text != "" && second != ""
    ensures Run([OnlyThought(first)] + [OnlyText(text)] + [OnlyThought(second)]) ==
            Talked([ReasoningDelta(first), ReasoningEnd(first, ""), Text(text), ReasoningDelta(second)],
                   Reasoning(first + second, "", true))
  {
    var a, x, b := OnlyThought(first), OnlyText(text), OnlyThought(second);
    StepSnoc([], a);
    assert [] + [a] == [a] && "" + first == first;
    AfterThought([], NO_REASONING, first);
    StepSnoc([a], x);
    AfterText([ReasoningDelta(first)], Reasoning(first, "", false), text);
    StepSnoc([a] + [x], b);
    AfterThought([ReasoningDelta(first), ReasoningEnd(first, ""), Text(text)], Reasoning(first, "", true), second);
  }

  /** Thoughts, text, and thoughts again: the second thoughts are in no reasoning end, although
      the response is completed. */
  lemma SecondThoughtsAreLost(first: string, text: string, second: string)
    requires first != "" && text != "" && second != ""
    ensures var chunks := [OnlyThought(first)] + [OnlyText(text)] + [OnlyThought(second)] + [Completed(None)];
            && ResponsesEvents(chunks) ==
               [ReasoningDelta(first), ReasoningEnd(first, ""), Text(text), ReasoningDelta(second), End]
            && !ReasoningComplete(ResponsesEvents(chunks))
  {
    var talk := [OnlyThought(first)] + [OnlyText(text)] + [OnlyThought(second)];
    var sent := [ReasoningDelta(first), ReasoningEnd(first, ""), Text(text), ReasoningDelta(second)];
    SecondThoughtsRun(first, text, second);
    StepSnoc(talk, Completed(None));
    CompletedWithoutCalls(sent, Reasoning(first + second, "", true));
    NothingToFlush();
    OnlyTheFirstIsEnded(first, text, second);
  }

  lemma OnlyTheFirstIsEnded(first: string, text: string, second: string)
    requires first != "" && second != ""
    ensures !ReasoningComplete([ReasoningDelta(first), ReasoningEnd(first, ""), Text(text), ReasoningDelta(second), End])
  {
    var one: Events := [ReasoningDelta(first)];
    var four := one + [ReasoningEnd(first, "")] + [Text(text)] + [ReasoningDelta(second)];
    assert [] + one == one;
    Snoc([], ReasoningDelta(first));
    Snoc(one, ReasoningEnd(first, ""));
    Snoc(one + [ReasoningEnd(first, "")], Text(text));
    Snoc(one + [ReasoningEnd(first, "")] + [Text(text)], ReasoningDelta(second));
    Snoc(four, End);
    assert four + [End] == [ReasoningDelta(first), ReasoningEnd(first, ""), Text(text), ReasoningDelta(second), End];
    assert |ReasoningOf(four + [End])| == |first| + |second|;
  }

  lemma CompletedWithoutCalls(sent: Events, r: Reasoning)
    requires r.complete
    ensures Step(Talked(sent, r), Completed(None)) == Talked(sent, r)
  {
    NothingToFlush();
    assert Numbered([]) == [];
  }

  lemma NothingToFlush()
    ensures Flush(map[]) == []
  {
    LexOrder();
    EmptyWhenNone(SortedKeys({}, LexLess));
  }

  // ---------------------------------------------------------------- the calls that are emitted

  predicate IsCall(item: Option<Item>, callId: string) {
    && item.Some? && item.value.isFunctionCall && item.value.tool.Some?
    && item.value.tool.value.callId == Some(callId) && callId != ""
  }

  /** The function call that was last given this index is this one. */
  predicate HeldBy(chunks: seq<Chunk>, callId: string, index: int) {
    if chunks == [] then false
    else
      var last := chunks[|chunks| - 1];
      if last.ItemAdded? && last.outputIndex == Some(index) && GivesIndex(last.item) then IsCall(last.item, callId)
      else HeldBy(chunks[..|chunks| - 1], callId, index)
  }

  predicate GivesIndex(item: Option<Item>) {
    && item.Some? && item.value.isFunctionCall && item.value.tool.Some?
    && item.value.tool.value.callId.Some? && item.value.tool.value.callId.value != ""
  }

  /** An argument delta for this call: it names the call or, without an item, has its index. */
  predicate IsDeltaOf(before: seq<Chunk>, chunk: Chunk, callId: string) {
    && chunk.ArgumentsDelta? && callId != ""
    && if chunk.item.Some? && chunk.item.value.tool.Some? then chunk.item.value.tool.value.callId == Some(callId)
       else chunk.outputIndex.Some? && chunk.delta.Some? && HeldBy(before, callId, chunk.outputIndex.value)
  }

  predicate Begun(chunks: seq<Chunk>, callId: string) {
    chunks != [] &&
    var n := |chunks| - 1;
    Begun(chunks[..n], callId) || (chunks[n].ItemAdded? && IsCall(chunks[n].item, callId)) || IsDeltaOf(chunks[..n], chunks[n], callId)
  }

  /** The final arguments, if any, and after them the first arguments and deltas, in order. */
  function ArgumentsOf(chunks: seq<Chunk>, callId: string): string {
    if chunks == [] then ""
    else
      var n := |chunks| - 1;
      var before, chunk := ArgumentsOf(chunks[..n], callId), chunks[n];
      if chunk.ItemAdded? && IsCall(chunk.item, callId) then before + Value(chunk.item.value.tool.value.arguments)
      else if IsDeltaOf(chunks[..n], chunk, callId) then before + Value(chunk.delta)
      else if chunk.ItemDone? && IsCall(chunk.item, callId) && Begun(chunks[..n], callId) &&
              Value(chunk.item.value.tool.value.arguments) != ""
      then Value(chunk.item.value.tool.value.arguments)
      else before
  }

  /** The last name that was given; an empty one in the end changes nothing. */
  function NameOf(chunks: seq<Chunk>, callId: string): string {
    if chunks == [] then ""
    else
      var n := |chunks| - 1;
      var before, chunk := NameOf(chunks[..n], callId), chunks[n];
      if chunk.ItemAdded? && IsCall(chunk.item, callId) && chunk.item.value.tool.value.name.Some?
      then chunk.item.value.tool.value.name.value
      else if IsDeltaOf(chunks[..n], chunk, callId) && HasTool(chunk.item) && chunk.item.value.tool.value.name.Some?
      then chunk.item.value.tool.value.name.value
      else if chunk.ItemDone? && IsCall(chunk.item, callId) && Begun(chunks[..n], callId) && Value(chunk.item.value.tool.value.name) != ""
      then Value(chunk.item.value.tool.value.name)
      else before
  }

  predicate IsNamed(chunks: seq<Chunk>, callId: string) {
    NameOf(chunks, callId) != ""
  }

  lemma {:induction false} RouteIsHeld(chunks: seq<Chunk>, callId: string, index: int)
    requires callId != ""
    ensures Lookup(RoutedAll(chunks).routes, index) == Some(callId) <==> HeldBy(chunks, callId, index)
  {
    if chunks != [] {
      var n := |chunks| - 1;
      RouteIsHeld(chunks[..n], callId, index);
      OneRoute(RoutedAll(chunks[..n]), chunks[n], index);
    }
  }

  /** What was collected for a call. */
  predicate CollectedFor(buffers: Buffers<string>, chunks: seq<Chunk>, callId: string) {
    && (callId in buffers <==> Begun(chunks, callId))
    && (callId in buffers ==> buffers[callId] == ToolCallBuffer(callId, NameOf(chunks, callId), ArgumentsOf(chunks, callId)))
    && (callId !in buffers ==> NameOf(chunks, callId) == ArgumentsOf(chunks, callId) == "")
  }

  lemma {:induction false} CallIsCollected(chunks: seq<Chunk>, callId: string)
    ensures CollectedFor(RoutedAll(chunks).buffers, chunks, callId)
  {
    if chunks != [] {
      CallIsCollected(chunks[..|chunks| - 1], callId);
      OneMoreIsCollected(chunks, callId);
    }
  }

  lemma OneMoreIsCollected(chunks: seq<Chunk>, callId: string)
    requires chunks != [] && CollectedFor(RoutedAll(chunks[..|chunks| - 1]).buffers, chunks[..|chunks| - 1], callId)
    ensures CollectedFor(RoutedAll(chunks).buffers, chunks, callId)
  {
    match chunks[|chunks| - 1]
    case ArgumentsDelta(_, _, _) => DeltaIsCollected(chunks, callId);
    case ItemAdded(_, _, _) => AddedIsCollected(chunks, callId);
    case ItemDone(_, _, _) => DoneIsCollected(chunks, callId);
    case _ => OtherIsCollected(chunks, callId);
  }

  lemma DeltaIsCollected(chunks: seq<Chunk>, callId: string)
    requires chunks != [] && CollectedFor(RoutedAll(chunks[..|chunks| - 1]).buffers, chunks[..|chunks| - 1], callId)
    requires chunks[|chunks| - 1].ArgumentsDelta?
    ensures CollectedFor(RoutedAll(chunks).buffers, chunks, callId)
  {
    var n := |chunks| - 1;
    var r, chunk := RoutedAll(chunks[..n]), chunks[n];
    TargetIsTheCall(chunks[..n], chunk, callId);
    DeltaReaches(r, chunk, callId);
  }

  /** A delta is routed to the call it is for. */
  lemma TargetIsTheCall(before: seq<Chunk>, chunk: Chunk, callId: string)
    requires chunk.ArgumentsDelta?
    ensures DeltaTarget(chunk, RoutedAll(before).routes) == Some(callId) <==> IsDeltaOf(before, chunk, callId)
  {
    RoutesAreNamed(before);
    if callId != "" && chunk.outputIndex.Some? { RouteIsHeld(before, callId, chunk.outputIndex.value); }
  }

  lemma DeltaReaches(r: Routing, chunk: Chunk, callId: string)
    requires chunk.ArgumentsDelta?
    ensures AppendsDelta(r.buffers, Routed(r, chunk).buffers, r.routes, chunk, callId)
    ensures GoesTo(r.routes, chunk, callId) <==> DeltaTarget(chunk, r.routes) == Some(callId)
  {
    assert forall s: string :: s + "" == s;
  }

  /** A delta goes to the call that its item names or, without an item, the one that has its index. */
  predicate GoesTo(routes: map<int, string>, chunk: Chunk, callId: string) {
    && chunk.ArgumentsDelta?
    && if chunk.item.Some? && chunk.item.value.tool.Some? then callId != "" && chunk.item.value.tool.value.callId == Some(callId)
       else chunk.outputIndex.Some? && chunk.delta.Some? && chunk.outputIndex.value in routes && routes[chunk.outputIndex.value] == callId
  }

  /** It is appended to the arguments of that call, and no other call changes. */
  predicate AppendsDelta(buffers: Buffers<string>, buffers': Buffers<string>, routes: map<int, string>, chunk: Chunk, callId: string)
    requires chunk.ArgumentsDelta?
  {
    if GoesTo(routes, chunk, callId)
    then
      && callId in buffers'
      && var b := if callId in buffers then buffers[callId] else ToolCallBuffer(callId, "", "");
         buffers'[callId] == b.(name := if HasTool(chunk.item) && chunk.item.value.tool.value.name.Some?
                                        then chunk.item.value.tool.value.name.value else b.name,
                                arguments := b.arguments + Value(chunk.delta))
    else (callId in buffers' <==> callId in buffers) && (callId in buffers' ==> buffers'[callId] == buffers[callId])
  }

  /** A new function call's first arguments are appended to what it has, and no other call changes. */
  predicate AppendsItem(buffers: Buffers<string>, buffers': Buffers<string>, chunk: Chunk, callId: string)
    requires chunk.ItemAdded?
  {
    if IsCall(chunk.item, callId)
    then
      && callId in buffers'
      && var b := if callId in buffers then buffers[callId] else ToolCallBuffer(callId, "", "");
         var tm := chunk.item.value.tool.value;
         buffers'[callId] == b.(name := if tm.name.Some? then tm.name.value else b.name, arguments := b.arguments + Value(tm.arguments))
    else (callId in buffers' <==> callId in buffers) && (callId in buffers' ==> buffers'[callId] == buffers[callId])
  }

  lemma AddedIsCollected(chunks: seq<Chunk>, callId: string)
    requires chunks != [] && CollectedFor(RoutedAll(chunks[..|chunks| - 1]).buffers, chunks[..|chunks| - 1], callId)
    requires chunks[|chunks| - 1].ItemAdded?
    ensures CollectedFor(RoutedAll(chunks).buffers, chunks, callId)
  {
    AddedReaches(RoutedAll(chunks[..|chunks| - 1]), chunks[|chunks| - 1], callId);
  }

  lemma AddedReaches(r: Routing, chunk: Chunk, callId: string)
    requires chunk.ItemAdded?
    ensures AppendsItem(r.buffers, Routed(r, chunk).buffers, chunk, callId)
  {
    assert forall s: string :: s + "" == s;
  }

  lemma DoneIsCollected(chunks: seq<Chunk>, callId: string)
    requires chunks != [] && CollectedFor(RoutedAll(chunks[..|chunks| - 1]).buffers, chunks[..|chunks| - 1], callId)
    requires chunks[|chunks| - 1].ItemDone?
    ensures CollectedFor(RoutedAll(chunks).buffers, chunks, callId)
  {
    DoneReaches(RoutedAll(chunks[..|chunks| - 1]), chunks[|chunks| - 1], callId);
  }

  lemma DoneReaches(r: Routing, chunk: Chunk, callId: string)
    requires chunk.ItemDone?
    ensures var buffers := Routed(r, chunk).buffers;
            && (callId in buffers <==> callId in r.buffers)
            && (callId in buffers ==>
                  if IsCall(chunk.item, callId)
                  then
                    var b, tm := r.buffers[callId], chunk.item.value.tool.value;
                    buffers[callId] == ToolCallBuffer(b.id, if Value(tm.name) != "" then Value(tm.name) else b.name,
                                                      if Value(tm.arguments) != "" then Value(tm.arguments) else b.arguments)
                  else buffers[callId] == r.buffers[callId])
  {
  }

  lemma OtherIsCollected(chunks: seq<Chunk>, callId: string)
    requires chunks != [] && CollectedFor(RoutedAll(chunks[..|chunks| - 1]).buffers, chunks[..|chunks| - 1], callId)
    requires !chunks[|chunks| - 1].ArgumentsDelta? && !chunks[|chunks| - 1].ItemAdded? && !chunks[|chunks| - 1].ItemDone?
    ensures CollectedFor(RoutedAll(chunks).buffers, chunks, callId)
  {
  }

  lemma {:induction false} RoutesAreNamed(chunks: seq<Chunk>)
    ensures forall j :: j in RoutedAll(chunks).routes ==> RoutedAll(chunks).routes[j] != ""
  {
    if chunks != [] { RoutesAreNamed(chunks[..|chunks| - 1]); }
  }

  /** The calls made of these chunks, in the order of their IDs. */
  ghost predicate CallsOfChunks(calls: seq<ToolCall>, ids: seq<string>, chunks: seq<Chunk>) {
    && Sorted(ids, LexLess)
    && (forall id :: id in ids <==> IsNamed(chunks, id))
    && |calls| == |ids|
    && (forall i :: 0 <= i < |ids| ==> IsCallOfId(calls[i], chunks, ids[i]))
  }

  predicate IsCallOfId(call: ToolCall, chunks: seq<Chunk>, callId: string) {
    && call.id == Given(callId)
    && call.name == NameOf(chunks, callId)
    && call.arguments == if ArgumentsOf(chunks, callId) == "" then "{}" else ArgumentsOf(chunks, callId)
  }

  lemma {:induction false} NoCallWithoutId(chunks: seq<Chunk>)
    ensures !Begun(chunks, "")
  {
    if chunks != [] { NoCallWithoutId(chunks[..|chunks| - 1]); }
  }

  lemma FlushOfChunks(chunks: seq<Chunk>) returns (ids: seq<string>)
    ensures CallsOfChunks(Flush(RoutedAll(chunks).buffers), ids, chunks)
  {
    var buffers := RoutedAll(chunks).buffers;
    LexOrder();
    ids := FlushMakesTheCalls(buffers, true, LexLess);
    forall id ensures CollectedFor(buffers, chunks, id) { CallIsCollected(chunks, id); }
    NoCallWithoutId(chunks);
    forall id ensures id in ids <==> IsNamed(chunks, id) { assert CollectedFor(buffers, chunks, id); }
    forall i | 0 <= i < |ids| ensures IsCallOfId(Flush(buffers)[i], chunks, ids[i]) {
      assert ids[i] in ids && CollectedFor(buffers, chunks, ids[i]);
    }
  }

  /** A stream ends in an error after a failure, and otherwise in the calls with a name that were
      read, each with its own arguments, or in none if there is no such call. */
  lemma ReadCallsAreEmitted(chunks: seq<Chunk>)
    ensures var events := ResponsesEvents(chunks);
            var read := chunks[..ReadCount(chunks)];
            EndsAsRead(events, read)
  {
    ReadIsAll(chunks);
    AllReadEndsAsRead(chunks[..ReadCount(chunks)]);
  }

  ghost predicate EndsAsRead(events: Events, read: seq<Chunk>) {
    && events != []
    && var last := events[|events| - 1];
    if read != [] && read[|read| - 1].Failure? then last == Error
    else if exists id :: IsNamed(read, id) then last.ToolCalls? && exists ids :: CallsOfChunks(last.calls, ids, read)
    else last == End
  }

  lemma AllReadEndsAsRead(read: seq<Chunk>)
    requires ReadCount(read) == |read|
    ensures EndsAsRead(ResponsesEvents(read), read)
  {
    LastEvent(read);
    var ids := FlushOfChunks(read);
    EndsInCalls(ResponsesEvents(read), Flush(RoutedAll(read).buffers), ids, read);
  }

  /** The last event, given the calls. */
  predicate EndsIn(events: Events, calls: seq<ToolCall>, chunks: seq<Chunk>) {
    && events != []
    && events[|events| - 1] ==
       if chunks != [] && chunks[|chunks| - 1].Failure? then Error else if calls != [] then ToolCalls(calls) else End
  }

  lemma EndsInCalls(events: Events, calls: seq<ToolCall>, ids: seq<string>, read: seq<Chunk>)
    requires EndsIn(events, calls, read) && CallsOfChunks(calls, ids, read)
    ensures EndsAsRead(events, read)
  {
    CallsIfNamed(calls, ids, read);
    if calls != [] { assert CallsOfChunks(ToolCalls(calls).calls, ids, read); }
  }

  lemma NamedOrNone(chunks: seq<Chunk>) returns (ids: seq<string>)
    ensures CallsOfChunks(Flush(RoutedAll(chunks).buffers), ids, chunks)
    ensures Flush(RoutedAll(chunks).buffers) != [] <==> exists id :: IsNamed(chunks, id)
  {
    ids := FlushOfChunks(chunks);
    CallsIfNamed(Flush(RoutedAll(chunks).buffers), ids, chunks);
  }

  lemma CallsIfNamed(calls: seq<ToolCall>, ids: seq<string>, chunks: seq<Chunk>)
    requires CallsOfChunks(calls, ids, chunks)
    ensures calls != [] <==> exists id :: IsNamed(chunks, id)
  {
    if calls != [] {
      assert ids[0] in ids;
    }
  }

  /** What a stream all of whose chunks are read ends in. */
  lemma LastEvent(chunks: seq<Chunk>)
    requires ReadCount(chunks) == |chunks|
    ensures EndsIn(ResponsesEvents(chunks), Flush(RoutedAll(chunks).buffers), chunks)
  {
    if Run(chunks).ended {
      FrontIsRead(chunks);
      LastChunkEnds(chunks);
    } else {
      OpenRunsRouteAll(chunks);
      if chunks != [] && chunks[|chunks| - 1].Failure? { FailureEnds(chunks); }
    }
  }

  lemma FailureEnds(chunks: seq<Chunk>)
    requires chunks != [] && chunks[|chunks| - 1].Failure?
    ensures Run(chunks).ended
  {
  }

  lemma LastChunkEnds(chunks: seq<Chunk>)
    requires chunks != [] && Run(chunks).ended && !Run(chunks[..|chunks| - 1]).ended
    ensures var sent := Run(chunks).wire.sent;
            && sent != []
            && sent[|sent| - 1] ==
               if chunks[|chunks| - 1].Failure? then Error else ToolCalls(Flush(RoutedAll(chunks).buffers))
    ensures !chunks[|chunks| - 1].Failure? ==> Flush(RoutedAll(chunks).buffers) != []
  {
    var n := |chunks| - 1;
    OpenRunsRouteAll(chunks[..n]);
    RunRoutes(chunks);
  }

  // ---------------------------------------------------------------- all events

  function SignatureOf(chunk: Chunk): string {
    if chunk.ReasoningText? || chunk.ReasoningProgress? then Value(chunk.signature) else ""
  }

  /** The last signature that is not empty. */
  function LastSignature(chunks: seq<Chunk>): string {
    if chunks == [] then ""
    else
      var n := |chunks| - 1;
      if SignatureOf(chunks[n]) != "" then SignatureOf(chunks[n]) else LastSignature(chunks[..n])
  }

  /** The URLs that finished items give, each once. */
  function SourcesAt(chunks: seq<Chunk>): seq<string> {
    if chunks == [] then []
    else
      var n := |chunks| - 1;
      if chunks[n].ItemDone? then WithSources(SourcesAt(chunks[..n]), chunks[n].sources) else SourcesAt(chunks[..n])
  }

  /** Citations are numbered as they come. A completion without any cites the sources instead. */
  function CitationsAt(chunks: seq<Chunk>): seq<Citation> {
    if chunks == [] then []
    else
      var n := |chunks| - 1;
      var before := CitationsAt(chunks[..n]);
      if chunks[n].AnnotationAdded? && chunks[n].citation.Some? then before + [Citation(chunks[n].citation.value, |before| + 1)]
      else if chunks[n].Completed? then CitationsInTheEnd(before, SourcesAt(chunks[..n]))
      else before
  }

  function CitationsInTheEnd(citations: seq<Citation>, sources: seq<string>): seq<Citation> {
    if citations != [] then citations else seq(|sources|, i requires 0 <= i < |sources| => Citation(sources[i], i + 1))
  }

  /** Sources are the URLs that are not blank, each once, in the order they first come. */
  lemma {:induction false} SourcesAreTheUrls(known: seq<string>, urls: seq<string>)
    requires forall i, j :: 0 <= i < j < |known| ==> known[i] != known[j]
    ensures var sources := WithSources(known, urls);
            && known <= sources
            && (forall url :: url in sources <==> url in known || (url != "" && url in urls))
            && (forall i, j :: 0 <= i < j < |sources| ==> sources[i] != sources[j])
  {
    if urls != [] {
      var n := |urls| - 1;
      SourcesAreTheUrls(known, urls[..n]);
      assert urls == urls[..n] + [urls[n]];
    }
  }

  lemma {:induction false} SourcesComeInOrder(known: seq<string>, urls: seq<string>, n: nat)
    requires n <= |urls|
    ensures WithSources(known, urls[..n]) <= WithSources(known, urls)
    decreases |urls|
  {
    if n == |urls| {
      assert urls[..n] == urls;
    } else {
      SourcesComeInOrder(known, urls[..|urls| - 1], n);
      assert urls[..|urls| - 1][..n] == urls[..n];
    }
  }

  function EndOf(chunks: seq<Chunk>): Event {
    ReasoningEnd(Thoughts(chunks), LastSignature(chunks))
  }

  function AnnotationEvents(citations: seq<Citation>): Events {
    if citations != [] then [Annotations(citations)] else []
  }

  /** What a chunk is answered with, after these, but for the event that ends the stream. */
  function Answer(before: seq<Chunk>, chunk: Chunk): Events {
    var closing := if HasThought(before) && !HasClosing(before) then [EndOf(before)] else [];
    match chunk
    case TextDelta(delta) => closing + if Value(delta) != "" then [Text(Value(delta))] else []
    case ReasoningText(delta, _) => if Value(delta) != "" then [ReasoningDelta(Value(delta))] else []
    case TextDone => AnnotationEvents(CitationsAt(before))
    case CodeDone(activity) => if activity then [ServerTools] else []
    case ItemAdded(_, _, activity) => if activity then [ServerTools] else []
    case ItemDone(_, _, activity) => if activity then [ServerTools] else []
    case Completed(usage) => closing + AnnotationEvents(CitationsInTheEnd(CitationsAt(before), SourcesAt(before))) + UsageEvents(usage)
    case _ => []
  }

  function Answers(chunks: seq<Chunk>): Events {
    if chunks == [] then [] else Answers(chunks[..|chunks| - 1]) + Answer(chunks[..|chunks| - 1], chunks[|chunks| - 1])
  }

  /** What the state of a stream says of the chunks so far. */
  ghost predicate Remembers(s: ResponsesState, chunks: seq<Chunk>) {
    && s.wire.reasoning.buffer == Thoughts(chunks)
    && s.wire.reasoning.signature == LastSignature(chunks)
    && (s.wire.reasoning.buffer != "" <==> HasThought(chunks))
    && (s.wire.reasoning.complete <==> HasClosing(chunks))
    && s.citations == CitationsAt(chunks) && s.sources == SourcesAt(chunks)
  }

  lemma {:induction false} RunNotes(chunks: seq<Chunk>)
    requires ReadCount(chunks) == |chunks|
    ensures NotesAt(chunks)
  {
    if chunks != [] {
      FrontIsRead(chunks);
      RunNotes(chunks[..|chunks| - 1]);
      OneMoreNote(chunks);
    }
  }

  ghost predicate NotesAt(chunks: seq<Chunk>) {
    var s := Run(chunks);
    s.wire.reasoning.signature == LastSignature(chunks) && s.citations == CitationsAt(chunks) && s.sources == SourcesAt(chunks)
  }

  lemma OneMoreNote(chunks: seq<Chunk>)
    requires chunks != [] && NotesAt(chunks[..|chunks| - 1]) && !Run(chunks[..|chunks| - 1]).ended
    ensures NotesAt(chunks)
  {
    ChunkNotes(Run(chunks[..|chunks| - 1]), chunks[|chunks| - 1]);
  }

  lemma ChunkNotes(s: ResponsesState, chunk: Chunk)
    ensures var s' := OnChunk(s, chunk);
            && s'.wire.reasoning.signature == (if SignatureOf(chunk) != "" then SignatureOf(chunk) else s.wire.reasoning.signature)
            && s'.sources == (if chunk.ItemDone? then WithSources(s.sources, chunk.sources) else s.sources)
            && s'.citations ==
               (if chunk.AnnotationAdded? && chunk.citation.Some?
                then s.citations + [Citation(chunk.citation.value, |s.citations| + 1)]
                else if chunk.Completed? then CitationsInTheEnd(s.citations, s.sources)
                else s.citations)
  {
  }

  lemma RunRemembers(chunks: seq<Chunk>)
    requires ReadCount(chunks) == |chunks|
    ensures Remembers(Run(chunks), chunks)
  {
    RunText(chunks);
    assert chunks[..|chunks|] == chunks;
    RunCloses(chunks);
    RunNotes(chunks);
    assert NotesAt(chunks);
  }

  /** The event that ends the stream at this chunk, if it does. */
  ghost function Final(s: ResponsesState, chunk: Chunk): Events {
    if chunk.Failure? then [Error]
    else if chunk.Completed? && Flush(s.routing.buffers) != [] then [ToolCalls(Flush(s.routing.buffers))]
    else []
  }

  lemma ChunkAnswers(s: ResponsesState, before: seq<Chunk>, chunk: Chunk)
    requires Remembers(s, before)
    ensures OnChunk(s, chunk).wire.sent == s.wire.sent + Answer(before, chunk) + Final(s, chunk)
  {
    match chunk
    case Completed(usage) => CompletionAnswers(s, before, usage);
    case TextDelta(delta) => TextAnswers(s, before, delta);
    case _ =>
  }

  lemma TextAnswers(s: ResponsesState, before: seq<Chunk>, delta: Option<string>)
    requires Remembers(s, before)
    ensures OnChunk(s, TextDelta(delta)).wire.sent == s.wire.sent + Answer(before, TextDelta(delta)) + Final(s, TextDelta(delta))
  {
    ClosingIs(s, before);
    TextSends(s.wire, Value(delta));
  }

  lemma TextSends(w: Wire, text: string)
    ensures SendText(Closed(w), text).sent ==
            w.sent + ((if Unsent(w.reasoning) then [ReasoningEnd(w.reasoning.buffer, w.reasoning.signature)] else [])
                      + if text != "" then [Text(text)] else [])
  {
  }

  lemma CompletionAnswers(s: ResponsesState, before: seq<Chunk>, usage: Option<TokenUsage>)
    requires Remembers(s, before)
    ensures OnCompleted(s, usage).wire.sent == s.wire.sent + Answer(before, Completed(usage)) + Final(s, Completed(usage))
  {
    LastWordsSend(s.wire, AllCitations(s), usage);
    CompletionSends(s, usage);
    ClosingIs(s, before);
  }

  lemma CompletionSends(s: ResponsesState, usage: Option<TokenUsage>)
    ensures OnCompleted(s, usage).wire.sent == LastWords(s.wire, AllCitations(s), usage).sent + Final(s, Completed(usage))
    ensures AllCitations(s) == CitationsInTheEnd(s.citations, s.sources)
  {
  }

  lemma ClosingIs(s: ResponsesState, before: seq<Chunk>)
    requires Remembers(s, before)
    ensures (if HasThought(before) && !HasClosing(before) then [EndOf(before)] else []) ==
            if Unsent(s.wire.reasoning) then [ReasoningEnd(s.wire.reasoning.buffer, s.wire.reasoning.signature)] else []
  {
  }

  lemma LastWordsSend(w: Wire, citations: seq<Citation>, usage: Option<TokenUsage>)
    ensures LastWords(w, citations, usage).sent ==
            w.sent + ((if Unsent(w.reasoning) then [ReasoningEnd(w.reasoning.buffer, w.reasoning.signature)] else [])
                      + AnnotationEvents(citations) + UsageEvents(usage))
  {
  }

  /** What has been sent of a stream, but for the event that ends it. */
  ghost predicate IsAnswered(chunks: seq<Chunk>) {
    var s := Run(chunks);
    if !s.ended then s.wire.sent == Answers(chunks)
    else s.wire.sent != [] && s.wire.sent[..|s.wire.sent| - 1] == Answers(chunks)
  }

  lemma {:induction false} RunAnswers(chunks: seq<Chunk>)
    requires ReadCount(chunks) == |chunks|
    ensures IsAnswered(chunks)
  {
    if chunks != [] {
      FrontIsRead(chunks);
      RunAnswers(chunks[..|chunks| - 1]);
      RunRemembers(chunks[..|chunks| - 1]);
      OneMoreAnswered(chunks);
    }
  }

  lemma OneMoreAnswered(chunks: seq<Chunk>)
    requires chunks != [] && !Run(chunks[..|chunks| - 1]).ended
    requires IsAnswered(chunks[..|chunks| - 1]) && Remembers(Run(chunks[..|chunks| - 1]), chunks[..|chunks| - 1])
    ensures IsAnswered(chunks)
  {
    var before, chunk := chunks[..|chunks| - 1], chunks[|chunks| - 1];
    var s, s' := Run(before), Run(chunks);
    ChunkAnswers(s, before, chunk);
    LastStep(chunks);
    EndsOneMore(s, chunk);
    FinalIsLast(s.wire.sent + Answer(before, chunk), Final(s, chunk), s'.wire.sent, s'.ended);
  }

  lemma LastStep(chunks: seq<Chunk>)
    requires chunks != [] && !Run(chunks[..|chunks| - 1]).ended
    ensures var before, chunk := chunks[..|chunks| - 1], chunks[|chunks| - 1];
            && Run(chunks) == Step(Run(before), chunk)
            && Run(chunks).wire == OnChunk(Run(before), chunk).wire
            && Answers(chunks) == Answers(before) + Answer(before, chunk)
  {
  }

  lemma FinalIsLast(answers: Events, final: Events, sent: Events, ended: bool)
    requires sent == answers + final && |final| == if ended then 1 else 0
    ensures if ended then sent != [] && sent[..|sent| - 1] == answers else sent == answers
  {
  }

  ghost predicate Delivers(events: Events, chunks: seq<Chunk>) {
    exists last :: events == Answers(chunks[..ReadCount(chunks)]) + [last] && EndsAsRead([last], chunks[..ReadCount(chunks)])
  }

  /** Every event of a stream: the answers to the chunks read, and one terminal event, the calls
      among them as ReadCallsAreEmitted says. */
  lemma AllEvents(chunks: seq<Chunk>) returns (last: Event)
    ensures var read := chunks[..ReadCount(chunks)];
            Terminal(last) && ResponsesEvents(chunks) == Answers(read) + [last] && EndsAsRead([last], read)
    ensures Delivers(ResponsesEvents(chunks), chunks)
  {
    last := AllRead(chunks, chunks[..ReadCount(chunks)]);
  }

  lemma AllRead(chunks: seq<Chunk>, read: seq<Chunk>) returns (last: Event)
    requires read == chunks[..ReadCount(chunks)]
    ensures Terminal(last) && ResponsesEvents(chunks) == Answers(read) + [last] && EndsAsRead([last], read)
  {
    ReadIsAll(chunks);
    RunAnswers(read);
    ReadCallsAreEmitted(chunks);
    ResponsesEventsAreWellFormed(chunks);
    AllButTheLast(read);
    last := LastApart(ResponsesEvents(chunks), Answers(read), read);
  }

  lemma LastApart(events: Events, answers: Events, read: seq<Chunk>) returns (last: Event)
    requires WellFormed(events) && EndsAsRead(events, read) && events[..|events| - 1] == answers
    ensures Terminal(last) && events == answers + [last] && EndsAsRead([last], read)
  {
    last := events[|events| - 1];
    assert events == events[..|events| - 1] + [last];
  }

  lemma AllButTheLast(read: seq<Chunk>)
    requires IsAnswered(read)
    ensures var events := ResponsesEvents(read); events != [] && events[..|events| - 1] == Answers(read)
  {
  }
}
