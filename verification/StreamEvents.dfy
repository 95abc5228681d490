/**
 What the two provider streams have in common (bifrost/stream.go): the events sent to the
 reader, the reasoning accumulator and the buffers in which tool calls are collected.
 */
module StreamEvents {
  import opened Wrappers
  import opened GoStrings

  // ---------------------------------------------------------------- events

  /** The value behind an optional string, empty when absent. */
  function Value(s: Option<string>): string {
    if s.Some? then s.value else ""
  }

  datatype ToolCallId = Given(id: string) | Minted(number: nat)

  datatype ToolCall = ToolCall(id: ToolCallId, name: string, arguments: string)

  datatype TokenUsage = TokenUsage(inputTokens: int, outputTokens: int)

  datatype Citation = Citation(url: string, number: nat)

  datatype Event =
    | Text(text: string)
    | ReasoningDelta(text: string)
    | ReasoningEnd(text: string, signature: string)
    | Usage(usage: TokenUsage)
    | Annotations(citations: seq<Citation>)
    | ServerTools
    | Error
    | ToolCalls(calls: seq<ToolCall>)
    | End

  type Events = seq<Event>

  predicate Terminal(e: Event) {
    e.Error? || e.ToolCalls? || e.End?
  }

  /** The reasoning deltas, joined. */
  function ReasoningOf(events: Events): string {
    if events == [] then ""
    else
      var last := events[|events| - 1];
      ReasoningOf(events[..|events| - 1]) + if last.ReasoningDelta? then last.text else ""
  }

  predicate HasReasoningEnd(events: Events) {
    exists e :: 0 <= e < |events| && events[e].ReasoningEnd?
  }

  /** A reasoning end carries all reasoning sent before it, there is at most one, and no
      text comes between the first reasoning and it. */
  predicate ReasoningInOrder(events: Events) {
    EndsCarryAll(events) && OneEnd(events) && TextComesAfter(events)
  }

  predicate EndsCarryAll(events: Events) {
    forall e :: 0 <= e < |events| && events[e].ReasoningEnd? ==> events[e].text == ReasoningOf(events[..e]) != ""
  }

  predicate OneEnd(events: Events) {
    forall e, f :: 0 <= e < |events| && 0 <= f < |events| && events[e].ReasoningEnd? && events[f].ReasoningEnd? ==> e == f
  }

  predicate TextComesAfter(events: Events) {
    forall i, j :: 0 <= i < j < |events| && events[i].ReasoningDelta? && events[j].Text? ==> HasReasoningEnd(events[..j])
  }

  /** A finished stream: one terminal event, sent last, and reasoning in order. */
  predicate WellFormed(events: Events) {
    && events != []
    && (forall i :: 0 <= i < |events| ==> (Terminal(events[i]) <==> i == |events| - 1))
    && ReasoningInOrder(events)
  }

  // ---------------------------------------------------------------- reasoning

  datatype Reasoning = Reasoning(buffer: string, signature: string, complete: bool)

  const NO_REASONING := Reasoning("", "", false)

  /** What has been sent, and the reasoning not yet closed. */
  datatype Wire = Wire(sent: Events, reasoning: Reasoning)

  const SILENT := Wire([], NO_REASONING)

  predicate Unsent(r: Reasoning) {
    !r.complete && r.buffer != ""
  }

  function Send(w: Wire, e: Event): Wire {
    w.(sent := w.sent + [e])
  }

  function Closed(w: Wire): Wire {
    if Unsent(w.reasoning) then
      Wire(w.sent + [ReasoningEnd(w.reasoning.buffer, w.reasoning.signature)], w.reasoning.(complete := true))
    else w
  }

  function SendText(w: Wire, text: string): Wire {
    if text == "" then w else Send(w, Text(text))
  }

  function OnContent(w: Wire, content: string): Wire {
    if content == "" then w else SendText(Closed(w), content)
  }

  function SendReasoning(w: Wire, text: string): Wire {
    if text == "" then w
    else Wire(w.sent + [ReasoningDelta(text)], w.reasoning.(buffer := w.reasoning.buffer + text))
  }

  function Sign(w: Wire, signature: string): Wire {
    if signature == "" then w else w.(reasoning := w.reasoning.(signature := signature))
  }

  function SendUsage(w: Wire, usage: TokenUsage): Wire {
    if usage.inputTokens > 0 || usage.outputTokens > 0 then Send(w, Usage(usage)) else w
  }

  /** Usage is reported unless it is zero. */
  function UsageEvents(usage: Option<TokenUsage>): Events {
    if usage.Some? && (usage.value.inputTokens > 0 || usage.value.outputTokens > 0) then [Usage(usage.value)] else []
  }

  /** A stream that can still go on. */
  predicate Open(w: Wire) {
    && (forall i :: 0 <= i < |w.sent| ==> !Terminal(w.sent[i]))
    && ReasoningInOrder(w.sent)
    && ReasoningOf(w.sent) == w.reasoning.buffer
    && (w.reasoning.complete <==> HasReasoningEnd(w.sent))
    && (w.reasoning.buffer == "" ==> forall i :: 0 <= i < |w.sent| ==> !w.sent[i].ReasoningDelta?)
  }

  /** One more event, seen at an index of the longer stream. */
  lemma Snoc(events: Events, e: Event)
    ensures (events + [e])[..|events|] == events
    ensures forall i :: 0 <= i <= |events| ==> (events + [e])[..i] == events[..i]
    ensures ReasoningOf(events + [e]) == ReasoningOf(events) + if e.ReasoningDelta? then e.text else ""
    ensures HasReasoningEnd(events + [e]) <==> HasReasoningEnd(events) || e.ReasoningEnd?
  {
    var longer := events + [e];
    assert longer[..|events|] == events;
    forall i | 0 <= i <= |events| ensures longer[..i] == events[..i] { }
    assert longer[|events|] == e;
    if HasReasoningEnd(events) {
      var k :| 0 <= k < |events| && events[k].ReasoningEnd?;
      assert longer[k].ReasoningEnd?;
    }
  }

  /** The conditions under which one more event keeps reasoning in order. */
  lemma OneMoreInOrder(events: Events, e: Event)
    requires ReasoningInOrder(events)
    requires e.ReasoningEnd? ==> !HasReasoningEnd(events) && e.text == ReasoningOf(events) != ""
    requires e.Text? ==> HasReasoningEnd(events) || forall i :: 0 <= i < |events| ==> !events[i].ReasoningDelta?
    ensures ReasoningInOrder(events + [e])
  {
    EndsSnoc(events, e);
    OneEndSnoc(events, e);
    TextSnocInOrder(events, e);
  }

  lemma EndsSnoc(events: Events, e: Event)
    requires EndsCarryAll(events) && (e.ReasoningEnd? ==> e.text == ReasoningOf(events) != "")
    ensures EndsCarryAll(events + [e])
  {
    Snoc(events, e);
  }

  lemma OneEndSnoc(events: Events, e: Event)
    requires OneEnd(events) && (e.ReasoningEnd? ==> !HasReasoningEnd(events))
    ensures OneEnd(events + [e])
  {
  }

  lemma TextSnocInOrder(events: Events, e: Event)
    requires TextComesAfter(events)
    requires e.Text? ==> HasReasoningEnd(events) || forall i :: 0 <= i < |events| ==> !events[i].ReasoningDelta?
    ensures TextComesAfter(events + [e])
  {
    Snoc(events, e);
  }

  lemma SendKeepsOpen(w: Wire, e: Event)
    requires Open(w) && !Terminal(e) && !e.ReasoningEnd? && !e.ReasoningDelta?
    requires e.Text? ==> !Unsent(w.reasoning)
    ensures Open(Send(w, e))
  {
    Snoc(w.sent, e);
    OneMoreInOrder(w.sent, e);
  }

  lemma ClosedKeepsOpen(w: Wire)
    requires Open(w)
    ensures Open(Closed(w)) && !Unsent(Closed(w).reasoning)
  {
    if Unsent(w.reasoning) {
      var e := ReasoningEnd(w.reasoning.buffer, w.reasoning.signature);
      Snoc(w.sent, e);
      OneMoreInOrder(w.sent, e);
    }
  }

  lemma SendReasoningKeepsOpen(w: Wire, text: string)
    requires Open(w)
    ensures Open(SendReasoning(w, text))
  {
    if text != "" {
      Snoc(w.sent, ReasoningDelta(text));
      OneMoreInOrder(w.sent, ReasoningDelta(text));
    }
  }

  /** Closing an open stream with a terminal event finishes it. */
  lemma TerminalFinishes(w: Wire, e: Event)
    requires Open(w) && Terminal(e)
    ensures WellFormed(w.sent + [e])
    ensures ReasoningOf(w.sent + [e]) == w.reasoning.buffer
    ensures HasReasoningEnd(w.sent + [e]) <==> w.reasoning.complete
  {
    Snoc(w.sent, e);
    OneMoreInOrder(w.sent, e);
  }

  // ---------------------------------------------------------------- reasoning that is ended

  /** All reasoning that was sent is also in a reasoning end. */
  predicate ReasoningComplete(events: Events) {
    ReasoningOf(events) == "" ||
    exists e :: 0 <= e < |events| && events[e].ReasoningEnd? && events[e].text == ReasoningOf(events)
  }

  /** The texts of the reasoning ends, joined. */
  function Ended(events: Events): string {
    if events == [] then ""
    else
      var last := events[|events| - 1];
      Ended(events[..|events| - 1]) + if last.ReasoningEnd? then last.text else ""
  }

  lemma EndedSnoc(events: Events, e: Event)
    ensures Ended(events + [e]) == Ended(events) + if e.ReasoningEnd? then e.text else ""
  {
    assert (events + [e])[..|events|] == events;
  }

  /** The end that was sent, if any, carries the reasoning up to some point. */
  predicate Tracks(w: Wire) {
    if w.reasoning.complete then Ended(w.sent) <= w.reasoning.buffer && Ended(w.sent) != "" else Ended(w.sent) == ""
  }

  /** Reasoning was sent after its end. */
  predicate Late(w: Wire) {
    w.reasoning.complete && Ended(w.sent) != w.reasoning.buffer
  }

  lemma ClosedTracks(w: Wire)
    requires Tracks(w)
    ensures Tracks(Closed(w)) && (Late(Closed(w)) <==> Late(w))
  {
    var text := w.reasoning.buffer;
    EndedSnoc(w.sent, ReasoningEnd(text, w.reasoning.signature));
    assert "" + text == text;
  }

  lemma SendTracks(w: Wire, e: Event)
    requires Tracks(w) && !e.ReasoningEnd?
    ensures Tracks(Send(w, e)) && (Late(Send(w, e)) <==> Late(w))
  {
    EndedSnoc(w.sent, e);
    assert Ended(w.sent) + "" == Ended(w.sent);
  }

  lemma TextTracks(w: Wire, text: string)
    requires Tracks(w)
    ensures Tracks(SendText(Closed(w), text)) && (Late(SendText(Closed(w), text)) <==> Late(w))
  {
    ClosedTracks(w);
    if text != "" { SendTracks(Closed(w), Text(text)); }
  }

  /** Reasoning is late exactly when it comes after the end. */
  lemma ThoughtTracks(w: Wire, thought: string)
    requires Tracks(w)
    ensures Tracks(SendReasoning(w, thought))
    ensures Late(SendReasoning(w, thought)) <==> Late(w) || (thought != "" && w.reasoning.complete)
  {
    if thought != "" {
      var ended, buffer := Ended(w.sent), w.reasoning.buffer;
      EndedSnoc(w.sent, ReasoningDelta(thought));
      assert ended + "" == ended;
      if w.reasoning.complete {
        assert ended == buffer[..|ended|] == (buffer + thought)[..|ended|];
        assert |ended| < |buffer + thought|;
      }
    }
  }

  lemma UsageTracks(w: Wire, usage: TokenUsage)
    requires Tracks(w)
    ensures Tracks(SendUsage(w, usage)) && (Late(SendUsage(w, usage)) <==> Late(w))
  {
    SendTracks(w, Usage(usage));
  }

  /** The only reasoning end has the joined text of all of them. */
  lemma {:induction false} EndedIsTheEnd(events: Events)
    requires OneEnd(events)
    ensures !HasReasoningEnd(events) ==> Ended(events) == ""
    ensures forall e :: 0 <= e < |events| && events[e].ReasoningEnd? ==> events[e].text == Ended(events)
  {
    if events != [] {
      var n := |events| - 1;
      var front := events[..n];
      assert forall e :: 0 <= e < n ==> front[e] == events[e];
      EndedIsTheEnd(front);
      assert Ended(front) + "" == Ended(front);
      if events[n].ReasoningEnd? {
        assert !HasReasoningEnd(front);
        assert "" + events[n].text == events[n].text;
      }
    }
  }

  /** A stream that ends here has ended all its reasoning exactly when there was none, or it
      was ended and none came later. */
  lemma CompleteWhenEnded(w: Wire, e: Event)
    requires Open(w) && Tracks(w) && Terminal(e)
    ensures ReasoningComplete(w.sent + [e]) <==> w.reasoning.buffer == "" || (w.reasoning.complete && !Late(w))
  {
    var events := w.sent + [e];
    TerminalFinishes(w, e);
    EndedSnoc(w.sent, e);
    assert Ended(w.sent) + "" == Ended(w.sent);
    EndedIsTheEnd(events);
    if w.reasoning.complete && !Late(w) {
      var k :| 0 <= k < |events| && events[k].ReasoningEnd?;
      assert events[k].text == ReasoningOf(events);
    }
  }

  // ---------------------------------------------------------------- text

  /** The text deltas, joined. */
  function TextOf(events: Events): string {
    if events == [] then ""
    else
      var last := events[|events| - 1];
      TextOf(events[..|events| - 1]) + if last.Text? then last.text else ""
  }

  lemma TextSnoc(events: Events, e: Event)
    ensures TextOf(events + [e]) == TextOf(events) + if e.Text? then e.text else ""
  {
    assert (events + [e])[..|events|] == events;
  }

  lemma ClosedText(w: Wire)
    ensures TextOf(Closed(w).sent) == TextOf(w.sent)
    ensures Closed(w).reasoning.buffer == w.reasoning.buffer
  {
    TextSnoc(w.sent, ReasoningEnd(w.reasoning.buffer, w.reasoning.signature));
  }

  lemma ContentText(w: Wire, content: string)
    ensures TextOf(OnContent(w, content).sent) == TextOf(w.sent) + content
    ensures OnContent(w, content).reasoning.buffer == w.reasoning.buffer
    ensures OnContent(w, content).reasoning.complete <==> w.reasoning.complete || (content != "" && w.reasoning.buffer != "")
  {
    ClosedText(w);
    TextSnoc(Closed(w).sent, Text(content));
  }

  lemma ThoughtText(w: Wire, thought: string)
    ensures TextOf(SendReasoning(w, thought).sent) == TextOf(w.sent)
    ensures SendReasoning(w, thought).reasoning.buffer == w.reasoning.buffer + thought
    ensures SendReasoning(w, thought).reasoning.complete <==> w.reasoning.complete
  {
    TextSnoc(w.sent, ReasoningDelta(thought));
  }

  lemma UsageText(w: Wire, usage: TokenUsage)
    ensures TextOf(SendUsage(w, usage).sent) == TextOf(w.sent)
    ensures SendUsage(w, usage).reasoning == w.reasoning
  {
    TextSnoc(w.sent, Usage(usage));
  }

  lemma LastText(w: Wire, e: Event)
    requires Open(w) && Terminal(e)
    ensures TextOf(w.sent + [e]) == TextOf(w.sent)
    ensures ReasoningOf(w.sent + [e]) == w.reasoning.buffer
  {
    TextSnoc(w.sent, e);
    TerminalFinishes(w, e);
  }

  class ReasoningAccumulator {
    var buffer: string
    var signature: string
    var complete: bool

    constructor ()
      ensures Value() == NO_REASONING
    {
      buffer, signature, complete := "", "", false;
    }

    function Value(): Reasoning
      reads this
    {
      Reasoning(buffer, signature, complete)
    }

    /** Sends the reasoning end unless there is nothing to end or it was sent already. */
    method EmitEnd(output: Events) returns (output': Events)
      modifies this
      ensures Wire(output', Value()) == Closed(Wire(output, old(Value())))
    {
      if complete || |buffer| == 0 { return output; }
      output' := output + [ReasoningEnd(buffer, signature)];
      complete := true;
    }
  }

  // ---------------------------------------------------------------- tool-call buffers

  datatype ToolCallBuffer = ToolCallBuffer(id: string, name: string, arguments: string)

  const NO_CALL := ToolCallBuffer("", "", "")

  type Buffers<!K> = map<K, ToolCallBuffer>

  /** No arguments are the empty JSON object. */
  function ToolArgsToJSON(s: string): (json: string)
    ensures json != ""
    ensures s != "" ==> json == s
  {
    if s == "" then "{}" else s
  }

  ghost predicate Sorted<K(!new)>(keys: seq<K>, less: (K, K) -> bool) {
    forall i, j :: 0 <= i < j < |keys| ==> less(keys[i], keys[j])
  }

  /** The call that a buffer became, when it is the one after `already` others. */
  function Flushed(buffer: ToolCallBuffer, already: nat): ToolCall {
    ToolCall(
      if buffer.id == "" && buffer.name != "" then Minted(already) else Given(buffer.id),
      buffer.name,
      ToolArgsToJSON(buffer.arguments))
  }

  function FlushedCalls<K>(keys: seq<K>, buffers: Buffers<K>, requireName: bool): seq<ToolCall>
    requires forall k :: k in keys ==> k in buffers
  {
    if keys == [] then []
    else
      var n := |keys| - 1;
      var calls := FlushedCalls(keys[..n], buffers, requireName);
      if requireName && buffers[keys[n]].name == "" then calls else calls + [Flushed(buffers[keys[n]], |calls|)]
  }

  /** The keys that become calls, in order. */
  function KeptKeys<K>(keys: seq<K>, buffers: Buffers<K>, requireName: bool): (kept: seq<K>)
    requires forall k :: k in keys ==> k in buffers
    ensures forall k :: k in kept ==> k in buffers
  {
    if keys == [] then []
    else
      var n := |keys| - 1;
      KeptKeys(keys[..n], buffers, requireName) +
      if requireName && buffers[keys[n]].name == "" then [] else [keys[n]]
  }

  /** The call numbered i has what was collected: its name and arguments, and its ID. A call with
      a name and no ID is given one. */
  predicate IsCallOf(call: ToolCall, i: nat, buffer: ToolCallBuffer) {
    && call.name == buffer.name
    && call.arguments == (if buffer.arguments == "" then "{}" else buffer.arguments)
    && call.id == (if buffer.id == "" && buffer.name != "" then Minted(i) else Given(buffer.id))
  }

  /** Every kept key becomes one call, in key order, and keeps what was collected for it. */
  lemma {:induction false} FlushKeepsEveryCall<K>(keys: seq<K>, buffers: Buffers<K>, requireName: bool)
    requires forall k :: k in keys ==> k in buffers
    ensures var calls := FlushedCalls(keys, buffers, requireName);
            var kept := KeptKeys(keys, buffers, requireName);
            && |calls| == |kept|
            && (forall i :: 0 <= i < |kept| ==> IsCallOf(calls[i], i, buffers[kept[i]]))
  {
    if keys != [] { FlushKeepsEveryCall(keys[..|keys| - 1], buffers, requireName); }
  }

  lemma {:induction false} KeptKeysAreSorted<K(!new)>(keys: seq<K>, buffers: Buffers<K>, requireName: bool, less: (K, K) -> bool)
    requires (forall k :: k in keys ==> k in buffers) && Sorted(keys, less)
    ensures Sorted(KeptKeys(keys, buffers, requireName), less)
    ensures forall k :: k in KeptKeys(keys, buffers, requireName) <==> k in keys && (requireName ==> buffers[k].name != "")
  {
    if keys != [] {
      var n := |keys| - 1;
      assert keys == keys[..n] + [keys[n]];
      KeptKeysAreSorted(keys[..n], buffers, requireName, less);
      var before := KeptKeys(keys[..n], buffers, requireName);
      forall i | 0 <= i < |before| ensures less(before[i], keys[n]) {
        assert before[i] in keys[..n];
        var j :| 0 <= j < n && keys[j] == before[i];
      }
    }
  }

  /** The calls are those of these keys, in order. */
  ghost predicate CallsOf<K(!new)>(calls: seq<ToolCall>, keys: seq<K>, buffers: Buffers<K>, requireName: bool, less: (K, K) -> bool) {
    && Sorted(keys, less)
    && (forall k :: k in keys <==> k in buffers && (requireName ==> buffers[k].name != ""))
    && |calls| == |keys|
    && (forall i :: 0 <= i < |keys| ==> IsCallOf(calls[i], i, buffers[keys[i]]))
  }

  /** Flushing makes one call of every buffer, or of every one with a name, in key order. */
  lemma FlushMakesTheCalls<K(!new)>(buffers: Buffers<K>, requireName: bool, less: (K, K) -> bool) returns (keys: seq<K>)
    requires TotalOrder(less)
    ensures CallsOf(FlushedCalls(SortedKeys(buffers.Keys, less), buffers, requireName), keys, buffers, requireName, less)
  {
    var sorted := SortedKeys(buffers.Keys, less);
    keys := KeptKeys(sorted, buffers, requireName);
    SortedKeysAreSorted(buffers.Keys, less);
    KeptKeysAreSorted(sorted, buffers, requireName, less);
    FlushKeepsEveryCall(sorted, buffers, requireName);
  }

  lemma {:induction false} NamedKeysAreKept<K>(keys: seq<K>, buffers: Buffers<K>, requireName: bool)
    requires forall k :: k in keys ==> k in buffers
    ensures forall k :: k in keys && (requireName ==> buffers[k].name != "") ==> k in KeptKeys(keys, buffers, requireName)
  {
    if keys != [] {
      NamedKeysAreKept(keys[..|keys| - 1], buffers, requireName);
      assert keys == keys[..|keys| - 1] + [keys[|keys| - 1]];
    }
  }

  /** A call that can be run can be paired with its result: it has an ID of its own, and its
      arguments are not empty. */
  lemma FlushedCallsCanBeAnswered<K>(keys: seq<K>, buffers: Buffers<K>, requireName: bool)
    requires forall k :: k in keys ==> k in buffers
    ensures var calls := FlushedCalls(keys, buffers, requireName);
            && (forall i :: 0 <= i < |calls| ==>
                  && (calls[i].name != "" ==> calls[i].id != Given(""))
                  && (requireName ==> calls[i].name != "")
                  && calls[i].arguments != "")
            && (forall i, j :: 0 <= i < j < |calls| && calls[i].id == calls[j].id ==> calls[i].id.Given?)
  {
    FlushKeepsEveryCall(keys, buffers, requireName);
    KeptKeysAreNamed(keys, buffers);
  }

  lemma {:induction false} KeptKeysAreNamed<K>(keys: seq<K>, buffers: Buffers<K>)
    requires forall k :: k in keys ==> k in buffers
    ensures forall k :: k in KeptKeys(keys, buffers, true) ==> k in keys && buffers[k].name != ""
  {
    if keys != [] { KeptKeysAreNamed(keys[..|keys| - 1], buffers); }
  }

  /** The keys of a buffer map as slices.Sorted gives them. */
  ghost function SortedKeys<K(!new)>(keys: set<K>, less: (K, K) -> bool): (sorted: seq<K>)
    requires TotalOrder(less)
    ensures forall k :: k in sorted <==> k in keys
    decreases keys
  {
    if keys == {} then []
    else
      var top := Greatest(keys, less);
      SortedKeys(keys - {top}, less) + [top]
  }

  lemma {:induction false} SortedKeysAreSorted<K(!new)>(keys: set<K>, less: (K, K) -> bool)
    requires TotalOrder(less)
    ensures Sorted(SortedKeys(keys, less), less)
    decreases keys
  {
    if keys != {} { SortedKeysAreSorted(keys - {Greatest(keys, less)}, less); }
  }

  ghost function Greatest<K(!new)>(keys: set<K>, less: (K, K) -> bool): (top: K)
    requires TotalOrder(less) && keys != {}
    ensures top in keys && forall k :: k in keys ==> k == top || less(k, top)
    decreases keys
  {
    var k :| k in keys;
    if keys == {k} then k
    else
      assert keys - {k} != {};
      var top := Greatest(keys - {k}, less);
      if less(top, k) then k else top
  }

  lemma EmptyWhenNone<K>(s: seq<K>)
    ensures s == [] <==> forall k :: k !in s
  {
    if s != [] { assert s[0] in s; }
  }

  /** Two sorted sequences of the same keys are the same. */
  lemma {:induction false} SortedIsUnique<K(!new)>(a: seq<K>, b: seq<K>, less: (K, K) -> bool)
    requires TotalOrder(less) && Sorted(a, less) && Sorted(b, less)
    requires forall k :: k in a <==> k in b
    ensures a == b
    decreases |a|
  {
    if a == [] {
      EmptyWhenNone(b);
    } else {
      var top := a[|a| - 1];
      assert top in b;
      assert b[|b| - 1] in a;
      assert top == b[|b| - 1];
      WithoutLast(a, less);
      WithoutLast(b, less);
      SortedIsUnique(Front(a), Front(b), less);
      assert a == Front(a) + [top];
      assert b == Front(b) + [top];
    }
  }

  lemma WithoutLast<K(!new)>(a: seq<K>, less: (K, K) -> bool)
    requires TotalOrder(less) && Sorted(a, less) && a != []
    ensures Sorted(Front(a), less)
    ensures forall k :: k in Front(a) <==> k in a && k != a[|a| - 1]
  {
    assert a == Front(a) + [a[|a| - 1]];
  }

  function Front<K>(s: seq<K>): seq<K>
    requires s != []
  {
    s[..|s| - 1]
  }

  /** slices.Sorted over maps.Keys. */
  method SortKeys<K(!new, ==)>(keys: set<K>, less: (K, K) -> bool) returns (sorted: seq<K>)
    requires TotalOrder(less)
    ensures sorted == SortedKeys(keys, less)
  {
    sorted := [];
    var left := keys;
    while left != {}
      invariant left <= keys
      invariant Sorted(sorted, less)
      invariant forall k :: k in sorted <==> k in keys && k !in left
      invariant forall j, k :: j in left && k in sorted ==> less(j, k)
      decreases left
    {
      ghost var last := Greatest(left, less);
      var top :| top in left && forall k :: k in left ==> k == top || less(k, top);
      sorted := [top] + sorted;
      left := left - {top};
    }
    SortedKeysAreSorted(keys, less);
    SortedIsUnique(sorted, SortedKeys(keys, less), less);
  }

  method FlushToolCallBuffers<K(!new, ==)>(buffers: Buffers<K>, less: (K, K) -> bool, requireName: bool)
    returns (calls: seq<ToolCall>)
    requires TotalOrder(less)
    ensures calls == FlushedCalls(SortedKeys(buffers.Keys, less), buffers, requireName)
    ensures exists keys :: CallsOf(calls, keys, buffers, requireName, less)
  {
    ghost var all := FlushMakesTheCalls(buffers, requireName, less);
    var keys := SortKeys(buffers.Keys, less);
    calls := FlushKeys(keys, buffers, requireName);
  }

  method FlushKeys<K(==)>(keys: seq<K>, buffers: Buffers<K>, requireName: bool) returns (calls: seq<ToolCall>)
    requires forall k :: k in keys ==> k in buffers
    ensures calls == FlushedCalls(keys, buffers, requireName)
  {
    calls := [];
    for i := 0 to |keys|
      invariant calls == FlushedCalls(keys[..i], buffers, requireName)
    {
      assert keys[..i + 1] == keys[..i] + [keys[i]];
      FlushedSnoc(keys[..i], keys[i], buffers, requireName);
      var buffer := buffers[keys[i]];
      if requireName && buffer.name == "" { continue; }
      var call := FlushBuffer(buffer, |calls|);
      calls := calls + [call];
    }
    assert keys[..|keys|] == keys;
  }

  method FlushBuffer(buffer: ToolCallBuffer, already: nat) returns (call: ToolCall)
    ensures call == Flushed(buffer, already)
  {
    var id := Given(buffer.id);
    if buffer.id == "" && buffer.name != "" { id := Minted(already); }
    call := ToolCall(id, buffer.name, ToolArgsToJSON(buffer.arguments));
  }

  lemma FlushedSnoc<K>(keys: seq<K>, key: K, buffers: Buffers<K>, requireName: bool)
    requires key in buffers && forall k :: k in keys ==> k in buffers
    ensures forall k :: k in keys + [key] ==> k in buffers
    ensures var calls := FlushedCalls(keys, buffers, requireName);
            FlushedCalls(keys + [key], buffers, requireName) ==
            if requireName && buffers[key].name == "" then calls else calls + [Flushed(buffers[key], |calls|)]
  {
    assert (keys + [key])[..|keys|] == keys;
  }

  // ---------------------------------------------------------------- integer keys

  predicate IntLess(a: int, b: int) {
    a < b
  }

  lemma IntOrder()
    ensures TotalOrder(IntLess)
  {
  }
}
