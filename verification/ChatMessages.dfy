/**
 From stored posts to provider chat messages (bifrost/post_normalization.go and
 bifrost/chat.go): blank text and unpairable tool calls are removed, each post becomes
 messages, and for strict hops consecutive same-role messages are merged.

 The functions say what the loops compute; the methods are the loops.
 */
module ChatMessages {
  import opened Wrappers
  import opened Collections
  import opened GoStrings

  // ---------------------------------------------------------------- posts

  datatype Role = UserPost | BotPost | SystemPost

  datatype ToolStatus = Pending | Accepted | Rejected | Failed | Succeeded | AutoApproved

  datatype ToolCall = ToolCall(id: string, name: string, arguments: string, result: string, status: ToolStatus)

  /** What opening and inspecting an attached file finds. */
  datatype File =
    | Unsupported(mimeType: string)
    | Unreadable
    | TooLarge(dimensions: string, limit: string)
    | Readable(dataUrl: string)

  datatype ServerToolUse = ServerToolUse(id: string, tool: string, details: string)

  datatype Segment = TextSegment(text: string) | ServerToolSegment(serverToolId: string)

  datatype Post = Post(
    role: Role, message: string, files: seq<File>, toolUse: seq<ToolCall>,
    reasoning: string, reasoningSignature: string,
    serverTools: seq<ServerToolUse>, segments: seq<Segment>)

  const EMPTY_TOOL_RESULT_PLACEHOLDER := "(no output)"
  const MISSING_ANSWER_PLACEHOLDER := "(no response)"
  const PLACEHOLDER_POST := Post(BotPost, MISSING_ANSWER_PLACEHOLDER, [], [], "", "", [], [])

  lemma PlaceholdersAreNotBlank()
    ensures !IsBlank(EMPTY_TOOL_RESULT_PLACEHOLDER) && !IsBlank(MISSING_ANSWER_PLACEHOLDER)
  {
    assert !IsSpace(EMPTY_TOOL_RESULT_PLACEHOLDER[0]) && !IsSpace(MISSING_ANSWER_PLACEHOLDER[0]);
  }

  // ---------------------------------------------------------------- normalization

  function ReplayableCall(tc: ToolCall): seq<ToolCall> {
    if tc.id == "" || tc.name == "" then []
    else [if IsBlank(tc.result) then tc.(result := EMPTY_TOOL_RESULT_PLACEHOLDER) else tc]
  }

  function Replayable(calls: seq<ToolCall>): seq<ToolCall> {
    if calls == [] then [] else Replayable(calls[..|calls| - 1]) + ReplayableCall(calls[|calls| - 1])
  }

  method ReplayableToolCalls(calls: seq<ToolCall>) returns (replayable: seq<ToolCall>)
    ensures replayable == Replayable(calls)
  {
    replayable := [];
    for i := 0 to |calls|
      invariant replayable == Replayable(calls[..i])
    {
      assert calls[..i + 1][..i] == calls[..i];
      var tc := calls[i];
      if tc.id == "" || tc.name == "" { continue; }
      if IsBlank(tc.result) { tc := tc.(result := EMPTY_TOOL_RESULT_PLACEHOLDER); }
      replayable := replayable + [tc];
    }
    assert calls[..|calls|] == calls;
  }

  predicate KeptSegment(s: Segment) {
    !(s.TextSegment? && IsBlank(s.text))
  }

  function KeptSegments(segments: seq<Segment>): seq<Segment> {
    if segments == [] then []
    else KeptSegments(segments[..|segments| - 1]) +
         if KeptSegment(segments[|segments| - 1]) then [segments[|segments| - 1]] else []
  }

  function NormalBot(post: Post, strict: bool): Post {
    post.(message := if IsBlank(post.message) then "" else post.message,
          toolUse := Replayable(post.toolUse),
          segments := KeptSegments(post.segments),
          reasoning := if strict && post.reasoningSignature == "" then "" else post.reasoning)
  }

  /** Segments are kept in order, but for blank text. */
  lemma {:induction false} KeptSegmentsAreTheRest(segments: seq<Segment>, more: seq<Segment>)
    ensures KeptSegments(segments + more) == KeptSegments(segments) + KeptSegments(more)
  {
    if more == [] {
      assert segments + more == segments;
    } else {
      var n := |more| - 1;
      KeptSegmentsAreTheRest(segments, more[..n]);
      assert (segments + more)[..|segments| + n] == segments + more[..n];
    }
  }

  /** What normalizing does to each field of a bot post. */
  lemma NormalFields(post: Post, strict: bool, segment: Segment)
    ensures var p := NormalBot(post, strict);
            && p.role == post.role && p.files == post.files && p.serverTools == post.serverTools
            && p.reasoningSignature == post.reasoningSignature
            && p.message == (if IsBlank(post.message) then "" else post.message)
            && p.reasoning == if strict && post.reasoningSignature == "" then "" else post.reasoning
    ensures KeptSegments([segment]) == if segment.TextSegment? && IsBlank(segment.text) then [] else [segment]
  {
    assert [segment][..0] == [];
  }

  /** The post has provider-run tool activity to report. */
  predicate HasServerActivity(post: Post) {
    exists i :: 0 <= i < |post.serverTools| && post.serverTools[i].tool != ""
  }

  predicate HasText(post: Post) {
    post.message != "" || exists i :: 0 <= i < |post.segments| && post.segments[i].TextSegment?
  }

  /** Something of a normalized bot post is left to send. */
  predicate Sendable(post: Post) {
    HasText(post) || post.toolUse != [] || post.reasoning != "" || HasServerActivity(post)
  }

  /** The post as it is replayed, or nothing. */
  function NormalPost(post: Post, strict: bool): seq<Post> {
    match post.role
    case SystemPost => if IsBlank(post.message) then [] else [post]
    case UserPost => if IsBlank(post.message) && post.files == [] then [] else [post]
    case BotPost =>
      var p := NormalBot(post, strict);
      if Sendable(p) then [p] else []
  }

  predicate EndsInToolRound(posts: seq<Post>) {
    posts != [] && posts[|posts| - 1].role == BotPost && posts[|posts| - 1].toolUse != []
  }

  function NormalizeOnto(normalized: seq<Post>, post: Post, strict: bool): seq<Post> {
    var kept := NormalPost(post, strict);
    if kept != [] && post.role == UserPost && strict && EndsInToolRound(normalized)
    then normalized + [PLACEHOLDER_POST] + kept
    else normalized + kept
  }

  function Normalize(posts: seq<Post>, strict: bool): seq<Post> {
    if posts == [] then []
    else NormalizeOnto(Normalize(posts[..|posts| - 1], strict), posts[|posts| - 1], strict)
  }

  method NormalizeBotPost(post: Post, strict: bool) returns (p: Post, ok: bool)
    ensures p == NormalBot(post, strict) && ok == Sendable(p)
  {
    p := post;
    if IsBlank(p.message) { p := p.(message := ""); }
    var calls := ReplayableToolCalls(p.toolUse);
    p := p.(toolUse := calls);
    var kept: seq<Segment> := [];
    for i := 0 to |post.segments|
      invariant kept == KeptSegments(post.segments[..i])
    {
      assert post.segments[..i + 1][..i] == post.segments[..i];
      if KeptSegment(post.segments[i]) { kept := kept + [post.segments[i]]; }
    }
    assert post.segments[..|post.segments|] == post.segments;
    p := p.(segments := kept);
    if strict && p.reasoningSignature == "" { p := p.(reasoning := ""); }
    ok := HasText(p) || |p.toolUse| > 0 || p.reasoning != "" || HasServerActivity(p);
  }

  method NormalizePosts(posts: seq<Post>, strict: bool) returns (normalized: seq<Post>)
    ensures normalized == Normalize(posts, strict)
  {
    normalized := [];
    for i := 0 to |posts|
      invariant normalized == Normalize(posts[..i], strict)
    {
      assert posts[..i + 1][..i] == posts[..i];
      normalized := NormalizeNext(normalized, posts[i], strict);
    }
    assert posts[..|posts|] == posts;
  }

  method NormalizeNext(normalized: seq<Post>, next: Post, strict: bool) returns (normalized': seq<Post>)
    ensures normalized' == NormalizeOnto(normalized, next, strict)
  {
    normalized' := normalized;
    var post := next;
    match post.role {
      case SystemPost =>
        if IsBlank(post.message) { return; }
      case UserPost =>
        if IsBlank(post.message) && |post.files| == 0 { return; }
        if strict && |normalized| > 0 {
          var prev := normalized[|normalized| - 1];
          if prev.role == BotPost && |prev.toolUse| > 0 {
            normalized' := normalized + [PLACEHOLDER_POST];
          }
        }
      case BotPost =>
        var p, ok := NormalizeBotPost(post, strict);
        if !ok { return; }
        post := p;
    }
    normalized' := normalized' + [post];
  }

  // ---------------------------------------------------------------- messages

  datatype MessageRole = System | User | Assistant | Tool

  datatype Block = Text(text: string) | Image(url: string)

  datatype Content = Absent | Str(text: string) | Blocks(blocks: seq<Block>)

  datatype Call = Call(id: string, name: string, arguments: string)

  datatype Thinking = Thinking(text: string, signature: string)

  datatype AssistantPart = AssistantPart(calls: seq<Call>, thinking: seq<Thinking>)

  datatype Message = Message(
    role: MessageRole, content: Content, assistant: Option<AssistantPart>, toolCallId: string, isError: bool)

  function FileBlock(file: File): Block {
    match file
    case Unsupported(mimeType) => Text("[Unsupported image type: " + mimeType + "]")
    case Unreadable => Text("[Error reading image data]")
    case TooLarge(dimensions, limit) =>
      Text("[Image omitted because its dimensions (" + dimensions + ") exceed the maximum allowed size of " + limit + " pixels per dimension.]")
    case Readable(dataUrl) => Image(dataUrl)
  }

  function FileBlocks(files: seq<File>): seq<Block> {
    if files == [] then [] else FileBlocks(files[..|files| - 1]) + [FileBlock(files[|files| - 1])]
  }

  function Multimodal(post: Post): seq<Block> {
    (if IsBlank(post.message) then [] else [Text(post.message)]) + FileBlocks(post.files)
  }

  method MultimodalContent(post: Post) returns (parts: seq<Block>)
    ensures parts == Multimodal(post)
  {
    parts := [];
    if !IsBlank(post.message) { parts := parts + [Text(post.message)]; }
    ghost var text := parts;
    for i := 0 to |post.files|
      invariant parts == text + FileBlocks(post.files[..i])
    {
      assert post.files[..i + 1][..i] == post.files[..i];
      parts := parts + [FileBlock(post.files[i])];
    }
    assert post.files[..|post.files|] == post.files;
  }

  predicate ResultIsError(tc: ToolCall) {
    tc.status == Failed || tc.status == Rejected
  }

  function ToolResult(tc: ToolCall): Message {
    Message(Tool, Str(tc.result), None, tc.id, ResultIsError(tc))
  }

  function ToolResults(calls: seq<ToolCall>): seq<Message> {
    seq(|calls|, i requires 0 <= i < |calls| => ToolResult(calls[i]))
  }

  function Calls(calls: seq<ToolCall>): seq<Call> {
    seq(|calls|, i requires 0 <= i < |calls| => Call(calls[i].id, calls[i].name, calls[i].arguments))
  }

  function BotMessage(post: Post): Message {
    var thinking := if post.reasoning == "" then [] else [Thinking(post.reasoning, post.reasoningSignature)];
    Message(Assistant,
            if post.message == "" then Absent else Str(post.message),
            if thinking == [] && post.toolUse == [] then None else Some(AssistantPart(Calls(post.toolUse), thinking)),
            "", false)
  }

  function PostMessages(post: Post): seq<Message> {
    match post.role
    case SystemPost =>
      if IsBlank(post.message) then [] else [Message(System, Str(post.message), None, "", false)]
    case UserPost =>
      if post.files != [] then
        if Multimodal(post) == [] then [] else [Message(User, Blocks(Multimodal(post)), None, "", false)]
      else if IsBlank(post.message) then [] else [Message(User, Str(post.message), None, "", false)]
    case BotPost =>
      var msg := BotMessage(post);
      if post.toolUse != [] then [msg] + ToolResults(post.toolUse)
      else if msg.content == Absent && msg.assistant == None then []
      else [msg]
  }

  function Convert(posts: seq<Post>): seq<Message> {
    if posts == [] then [] else Convert(posts[..|posts| - 1]) + PostMessages(posts[|posts| - 1])
  }

  // ---------------------------------------------------------------- merging

  function ContentBlocks(msg: Message): seq<Block> {
    match msg.content
    case Absent => []
    case Str(text) => [Text(text)]
    case Blocks(blocks) => blocks
  }

  function MergedAssistant(a: Option<AssistantPart>, b: Option<AssistantPart>): Option<AssistantPart> {
    match (a, b)
    case (_, None) => a
    case (None, _) => b
    case (Some(x), Some(y)) => Some(AssistantPart(x.calls + y.calls, x.thinking + y.thinking))
  }

  function Merged(prev: Message, msg: Message): Message {
    prev.(content := Blocks(ContentBlocks(prev) + ContentBlocks(msg)),
          assistant := MergedAssistant(prev.assistant, msg.assistant))
  }

  predicate Mergeable(merged: seq<Message>, msg: Message) {
    merged != [] && merged[|merged| - 1].role == msg.role && msg.role != Tool
  }

  function MergeOnto(merged: seq<Message>, msg: Message): seq<Message> {
    if Mergeable(merged, msg) then merged[..|merged| - 1] + [Merged(merged[|merged| - 1], msg)]
    else merged + [msg]
  }

  function Merge(messages: seq<Message>): seq<Message> {
    if messages == [] then [] else MergeOnto(Merge(messages[..|messages| - 1]), messages[|messages| - 1])
  }

  method MergeInto(prev: Message, msg: Message) returns (merged: Message)
    ensures merged == Merged(prev, msg)
  {
    merged := prev.(content := Blocks(ContentBlocks(prev) + ContentBlocks(msg)));
    if msg.assistant.Some? {
      if prev.assistant.None? {
        merged := merged.(assistant := msg.assistant);
      } else {
        merged := merged.(assistant := Some(AssistantPart(
          prev.assistant.value.calls + msg.assistant.value.calls,
          prev.assistant.value.thinking + msg.assistant.value.thinking)));
      }
    }
  }

  method MergeConsecutiveSameRoleMessages(messages: seq<Message>) returns (merged: seq<Message>)
    ensures merged == Merge(messages)
  {
    if |messages| <= 1 {
      MergeOfOne(messages);
      return messages;
    }
    merged := [];
    for i := 0 to |messages|
      invariant merged == Merge(messages[..i])
    {
      assert messages[..i + 1][..i] == messages[..i];
      merged := MergeNext(merged, messages[i]);
    }
    assert messages[..|messages|] == messages;
  }

  method MergeNext(merged: seq<Message>, msg: Message) returns (merged': seq<Message>)
    ensures merged' == MergeOnto(merged, msg)
  {
    if |merged| > 0 && merged[|merged| - 1].role == msg.role && msg.role != Tool {
      var prev := MergeInto(merged[|merged| - 1], msg);
      return merged[..|merged| - 1] + [prev];
    }
    return merged + [msg];
  }

  lemma MergeOfOne(messages: seq<Message>)
    requires |messages| <= 1
    ensures Merge(messages) == messages
  {
    assert messages != [] ==> messages == [] + [messages[0]] && Merge(messages[..0]) == [];
  }

  /** An assistant message followed by one result message per tool call. */
  method AppendToolRound(messages: seq<Message>, post: Post) returns (extended: seq<Message>)
    ensures extended == messages + [BotMessage(post)] + ToolResults(post.toolUse)
  {
    extended := messages + [BotMessage(post)];
    ghost var opening := extended;
    for j := 0 to |post.toolUse|
      invariant extended == opening + ToolResults(post.toolUse)[..j]
    {
      extended := extended + [ToolResult(post.toolUse[j])];
    }
    assert ToolResults(post.toolUse)[..|post.toolUse|] == ToolResults(post.toolUse);
  }

  /** The chat messages for posts that were normalized for the hop. */
  method ConvertMessages(posts: seq<Post>, strict: bool) returns (messages: seq<Message>)
    ensures messages == if strict then Merge(Convert(posts)) else Convert(posts)
  {
    messages := [];
    for i := 0 to |posts|
      invariant messages == Convert(posts[..i])
    {
      assert posts[..i + 1][..i] == posts[..i];
      messages := ConvertNext(messages, posts[i]);
    }
    assert posts[..|posts|] == posts;
    if strict {
      messages := MergeConsecutiveSameRoleMessages(messages);
    }
  }

  method ConvertNext(messages: seq<Message>, post: Post) returns (messages': seq<Message>)
    ensures messages' == messages + PostMessages(post)
  {
    match post.role {
      case SystemPost =>
        if IsBlank(post.message) { return messages; }
        return messages + [Message(System, Str(post.message), None, "", false)];
      case UserPost =>
        if |post.files| > 0 {
          var parts := MultimodalContent(post);
          if |parts| == 0 { return messages; }
          return messages + [Message(User, Blocks(parts), None, "", false)];
        }
        if IsBlank(post.message) { return messages; }
        return messages + [Message(User, Str(post.message), None, "", false)];
      case BotPost =>
        var msg := BotMessage(post);
        if |post.toolUse| > 0 {
          Assoc(messages, [msg], ToolResults(post.toolUse));
          messages' := AppendToolRound(messages, post);
          return;
        }
        if msg.content == Absent && msg.assistant == None { return messages; }
        return messages + [msg];
    }
  }

  // ---------------------------------------------------------------- idempotence

  lemma {:induction false} ReplayableIsStable(calls: seq<ToolCall>)
    ensures Replayable(Replayable(calls)) == Replayable(calls)
  {
    if calls != [] {
      var n := |calls| - 1;
      ReplayableIsStable(calls[..n]);
      PlaceholdersAreNotBlank();
      var xs, ys := Replayable(calls[..n]), ReplayableCall(calls[n]);
      if ys == [] {
        assert xs + ys == xs;
      } else {
        assert (xs + ys)[..|xs + ys| - 1] == xs && ReplayableCall(ys[0]) == ys;
      }
    }
  }

  lemma {:induction false} ReplayableIsValid(calls: seq<ToolCall>)
    ensures forall tc :: tc in Replayable(calls) ==> tc.id != "" && tc.name != "" && !IsBlank(tc.result)
  {
    PlaceholdersAreNotBlank();
    if calls != [] {
      ReplayableIsValid(calls[..|calls| - 1]);
    }
  }

  lemma {:induction false} KeptSegmentsIsStable(segments: seq<Segment>)
    ensures KeptSegments(KeptSegments(segments)) == KeptSegments(segments)
  {
    if segments != [] {
      var n := |segments| - 1;
      KeptSegmentsIsStable(segments[..n]);
      var xs := KeptSegments(segments[..n]);
      if KeptSegment(segments[n]) {
        assert (xs + [segments[n]])[..|xs|] == xs;
      } else {
        assert xs + [] == xs;
      }
    }
  }

  lemma NormalPostIsStable(post: Post, strict: bool)
    ensures forall p :: p in NormalPost(post, strict) ==> p.role == post.role && NormalPost(p, strict) == [p]
  {
    if post.role == BotPost { NormalBotIsStable(post, strict); }
  }

  lemma NormalBotIsStable(post: Post, strict: bool)
    ensures NormalBot(NormalBot(post, strict), strict) == NormalBot(post, strict)
  {
    ReplayableIsStable(post.toolUse);
    KeptSegmentsIsStable(post.segments);
  }

  lemma PlaceholderIsNormal(strict: bool)
    ensures NormalPost(PLACEHOLDER_POST, strict) == [PLACEHOLDER_POST]
  {
    PlaceholdersAreNotBlank();
    assert NormalBot(PLACEHOLDER_POST, strict) == PLACEHOLDER_POST;
  }

  /** Normalizing a conversation a second time changes nothing. */
  lemma {:induction false} NormalizeIsIdempotent(posts: seq<Post>, strict: bool)
    ensures Normalize(Normalize(posts, strict), strict) == Normalize(posts, strict)
  {
    if posts != [] {
      var n := |posts| - 1;
      var xs := Normalize(posts[..n], strict);
      NormalizeIsIdempotent(posts[..n], strict);
      NormalizeOntoIsIdempotent(xs, posts[n], strict);
    }
  }

  lemma NormalizeSnoc(posts: seq<Post>, post: Post, strict: bool)
    ensures Normalize(posts + [post], strict) == NormalizeOnto(Normalize(posts, strict), post, strict)
  {
    assert (posts + [post])[..|posts|] == posts;
  }

  lemma NormalizeOntoIsIdempotent(xs: seq<Post>, post: Post, strict: bool)
    requires Normalize(xs, strict) == xs
    ensures Normalize(NormalizeOnto(xs, post, strict), strict) == NormalizeOnto(xs, post, strict)
  {
    var kept := NormalPost(post, strict);
    NormalPostIsStable(post, strict);
    if kept == [] {
      assert xs + kept == xs;
    } else {
      var p := kept[0];
      assert kept == [p];
      if p.role == UserPost && strict && EndsInToolRound(xs) {
        PlaceholderIsNormal(strict);
        NormalizeSnoc(xs, PLACEHOLDER_POST, strict);
        NormalizeSnoc(xs + [PLACEHOLDER_POST], p, strict);
      } else {
        NormalizeSnoc(xs, p, strict);
      }
    }
  }

  /** Posts other than the placeholder answer. */
  function WithoutPlaceholders(posts: seq<Post>): seq<Post> {
    if posts == [] then []
    else WithoutPlaceholders(posts[..|posts| - 1]) +
         if posts[|posts| - 1] == PLACEHOLDER_POST then [] else [posts[|posts| - 1]]
  }

  function NormalPosts(posts: seq<Post>, strict: bool): seq<Post> {
    if posts == [] then [] else NormalPosts(posts[..|posts| - 1], strict) + NormalPost(posts[|posts| - 1], strict)
  }

  lemma {:induction false} WithoutPlaceholdersConcat(a: seq<Post>, b: seq<Post>)
    ensures WithoutPlaceholders(a + b) == WithoutPlaceholders(a) + WithoutPlaceholders(b)
  {
    if b == [] {
      assert a + b == a;
    } else {
      WithoutPlaceholdersConcat(a, b[..|b| - 1]);
      assert (a + b)[..|a + b| - 1] == a + b[..|b| - 1];
    }
  }

  /** Normalization keeps each post's own normal form, in order, and adds nothing but
      placeholder answers. */
  lemma {:induction false} OnlyPlaceholdersAreAdded(posts: seq<Post>, strict: bool)
    ensures WithoutPlaceholders(Normalize(posts, strict)) == WithoutPlaceholders(NormalPosts(posts, strict))
    ensures !strict ==> Normalize(posts, strict) == NormalPosts(posts, strict)
  {
    if posts != [] {
      var n := |posts| - 1;
      OnlyPlaceholdersAreAdded(posts[..n], strict);
      var xs := Normalize(posts[..n], strict);
      var kept := NormalPost(posts[n], strict);
      WithoutPlaceholdersConcat(xs, kept);
      WithoutPlaceholdersConcat(xs, [PLACEHOLDER_POST]);
      WithoutPlaceholdersConcat(xs + [PLACEHOLDER_POST], kept);
      WithoutPlaceholdersConcat(NormalPosts(posts[..n], strict), kept);
      assert WithoutPlaceholders([PLACEHOLDER_POST]) == [];
    }
  }

  // ---------------------------------------------------------------- tool pairing

  function CallIds(msg: Message): seq<string> {
    if msg.assistant.None? then []
    else seq(|msg.assistant.value.calls|, i requires 0 <= i < |msg.assistant.value.calls| => msg.assistant.value.calls[i].id)
  }

  /** The tool results still owed after a history, or None if it already went wrong: a
      result that is not the next one owed, or any other message while one is owed. */
  function Owed(messages: seq<Message>): Option<seq<string>> {
    if messages == [] then Some([]) else OwedAfter(Owed(messages[..|messages| - 1]), messages[|messages| - 1])
  }

  function OwedAfter(owed: Option<seq<string>>, msg: Message): Option<seq<string>> {
    match owed
    case None => None
    case Some(ids) =>
      if msg.role == Tool then
        if ids != [] && ids[0] == msg.toolCallId then Some(ids[1..]) else None
      else if ids == [] then Some(CallIds(msg)) else None
  }

  lemma OwedSnoc(messages: seq<Message>, msg: Message)
    ensures Owed(messages + [msg]) == OwedAfter(Owed(messages), msg)
  {
    assert (messages + [msg])[..|messages|] == messages;
  }

  /** Each assistant message with tool calls is followed by exactly its results, in the
      order of the calls, and no result stands anywhere else. */
  predicate WellPaired(messages: seq<Message>) {
    Owed(messages) == Some([])
  }

  function ToolIds(calls: seq<ToolCall>): seq<string> {
    seq(|calls|, i requires 0 <= i < |calls| => calls[i].id)
  }

  lemma {:induction false} ResultsSettleCalls(messages: seq<Message>, calls: seq<ToolCall>, k: nat)
    requires k <= |calls| && Owed(messages) == Some(ToolIds(calls))
    ensures Settles(messages, calls, k)
  {
    if k == 0 {
      assert messages + ToolResults(calls)[..0] == messages;
    } else {
      ResultsSettleCalls(messages, calls, k - 1);
      NextResultSettles(messages, calls, k);
    }
  }

  /** After k results those of the remaining calls are owed. */
  predicate Settles(messages: seq<Message>, calls: seq<ToolCall>, k: nat)
    requires k <= |calls|
  {
    Owed(messages + ToolResults(calls)[..k]) == Some(ToolIds(calls)[k..])
  }

  lemma NextResultSettles(messages: seq<Message>, calls: seq<ToolCall>, k: nat)
    requires 0 < k <= |calls| && Settles(messages, calls, k - 1)
    ensures Settles(messages, calls, k)
  {
    var ids, results := ToolIds(calls), ToolResults(calls);
    OneResultSettles(messages + results[..k - 1], results[k - 1], ids[k - 1..]);
    assert results[..k] == results[..k - 1] + [results[k - 1]];
    Assoc(messages, results[..k - 1], [results[k - 1]]);
  }

  lemma OneResultSettles(messages: seq<Message>, result: Message, ids: seq<string>)
    requires Owed(messages) == Some(ids) && ids != [] && result.role == Tool && result.toolCallId == ids[0]
    ensures Owed(messages + [result]) == Some(ids[1..])
  {
    OwedSnoc(messages, result);
  }

  lemma PlainPostIsWellPaired(before: seq<Message>, post: Post)
    requires WellPaired(before) && PostMessages(post) != [] && !(post.role == BotPost && post.toolUse != [])
    ensures WellPaired(before + PostMessages(post))
  {
    var msg := PostMessages(post)[0];
    assert PostMessages(post) == [msg] && CallIds(msg) == [] && msg.role != Tool;
    OwedSnoc(before, msg);
  }

  lemma ToolRoundIsWellPaired(before: seq<Message>, post: Post)
    requires WellPaired(before)
    ensures post.toolUse != [] ==> WellPaired(before + ([BotMessage(post)] + ToolResults(post.toolUse)))
  {
    var calling := before + [BotMessage(post)];
    assert calling[..|before|] == before;
    var ids := ToolIds(post.toolUse);
    if post.toolUse != [] {
      assert CallIds(BotMessage(post)) == ids && calling[|before|] == BotMessage(post);
      ResultsSettleCalls(calling, post.toolUse, |post.toolUse|);
      assert ToolResults(post.toolUse)[..|post.toolUse|] == ToolResults(post.toolUse);
      assert ids[|post.toolUse|..] == [];
      assert before + ([BotMessage(post)] + ToolResults(post.toolUse)) == calling + ToolResults(post.toolUse);
    }
  }

  lemma {:induction false} ConvertIsWellPaired(posts: seq<Post>)
    ensures WellPaired(Convert(posts))
  {
    if posts != [] {
      var n := |posts| - 1;
      ConvertIsWellPaired(posts[..n]);
      var before, post := Convert(posts[..n]), posts[n];
      if PostMessages(post) == [] {
        assert before + [] == before;
      } else if post.role == BotPost && post.toolUse != [] {
        ToolRoundIsWellPaired(before, post);
      } else {
        PlainPostIsWellPaired(before, post);
      }
    }
  }

  lemma MergedCallIds(prev: Message, msg: Message)
    requires CallIds(prev) == []
    ensures CallIds(Merged(prev, msg)) == CallIds(msg)
  {
    if prev.assistant.Some? && msg.assistant.Some? {
      assert prev.assistant.value.calls + msg.assistant.value.calls == msg.assistant.value.calls;
    }
  }

  /** Merging leaves the outstanding tool results of a well-formed history as they were. */
  lemma {:induction false} MergeKeepsOwed(messages: seq<Message>)
    requires Owed(messages).Some?
    ensures Owed(Merge(messages)) == Owed(messages)
  {
    if messages != [] {
      var n := |messages| - 1;
      MergeKeepsOwed(messages[..n]);
      MergeOntoOwed(Merge(messages[..n]), messages[n]);
    }
  }

  lemma MergeOntoOwed(merged: seq<Message>, msg: Message)
    requires OwedAfter(Owed(merged), msg).Some?
    ensures Owed(MergeOnto(merged, msg)) == OwedAfter(Owed(merged), msg)
  {
    if Mergeable(merged, msg) {
      var front, last := merged[..|merged| - 1], merged[|merged| - 1];
      assert merged == front + [last];
      OwedSnoc(front, last);
      OwedSnoc(front, Merged(last, msg));
      MergedCallIds(last, msg);
    } else {
      OwedSnoc(merged, msg);
    }
  }

  // ---------------------------------------------------------------- alternation

  /** Neighbours with the same role are tool results. */
  predicate Alternates(messages: seq<Message>) {
    forall i :: 0 <= i < |messages| - 1 && messages[i].role == messages[i + 1].role ==> messages[i].role == Tool
  }

  lemma {:induction false} MergeAlternates(messages: seq<Message>)
    ensures Alternates(Merge(messages))
  {
    if messages != [] {
      MergeAlternates(messages[..|messages| - 1]);
    }
  }

  /** A part of what a provider is sent, message boundaries aside. */
  datatype Item =
    | Said(role: MessageRole, block: Block)
    | Called(call: Call)
    | Thought(thinking: Thinking)
    | Returned(id: string, result: string, isError: bool)

  function SaidIn(msg: Message): seq<Item> {
    var blocks := ContentBlocks(msg);
    seq(|blocks|, i requires 0 <= i < |blocks| => Said(msg.role, blocks[i]))
  }

  function CalledIn(msg: Message): seq<Item> {
    if msg.assistant.None? then []
    else var calls := msg.assistant.value.calls; seq(|calls|, i requires 0 <= i < |calls| => Called(calls[i]))
  }

  function ThoughtIn(msg: Message): seq<Item> {
    if msg.assistant.None? then []
    else var thinking := msg.assistant.value.thinking; seq(|thinking|, i requires 0 <= i < |thinking| => Thought(thinking[i]))
  }

  function ReturnedIn(msg: Message): seq<Item> {
    if msg.role == Tool && msg.content.Str? then [Returned(msg.toolCallId, msg.content.text, msg.isError)] else []
  }

  /** The parts of one kind, over a whole history in order. */
  function Collect(messages: seq<Message>, part: Message -> seq<Item>): seq<Item> {
    if messages == [] then []
    else Collect(messages[..|messages| - 1], part) + part(messages[|messages| - 1])
  }

  lemma {:induction false} MergeKeepsParts(messages: seq<Message>, part: Message -> seq<Item>)
    requires Additive(part)
    ensures Collect(Merge(messages), part) == Collect(messages, part)
  {
    if messages != [] {
      MergeKeepsParts(messages[..|messages| - 1], part);
      MergeOntoParts(Merge(messages[..|messages| - 1]), messages[|messages| - 1], part);
    }
  }

  /** A merged message has the parts of both. */
  ghost predicate Additive(part: Message -> seq<Item>) {
    forall prev: Message, msg: Message {:trigger Merged(prev, msg)} :: prev.role == msg.role && msg.role != Tool ==>
      part(Merged(prev, msg)) == part(prev) + part(msg)
  }

  lemma MergeOntoParts(merged: seq<Message>, msg: Message, part: Message -> seq<Item>)
    requires Additive(part)
    ensures Collect(MergeOnto(merged, msg), part) == Collect(merged, part) + part(msg)
  {
    if Mergeable(merged, msg) {
      var m := |merged| - 1;
      var front, both := merged[..m], Merged(merged[m], msg);
      Assoc(Collect(front, part), part(merged[m]), part(msg));
    }
  }

  lemma MergedParts(prev: Message, msg: Message)
    requires prev.role == msg.role && msg.role != Tool
    ensures SaidIn(Merged(prev, msg)) == SaidIn(prev) + SaidIn(msg)
    ensures CalledIn(Merged(prev, msg)) == CalledIn(prev) + CalledIn(msg)
    ensures ThoughtIn(Merged(prev, msg)) == ThoughtIn(prev) + ThoughtIn(msg)
    ensures ReturnedIn(Merged(prev, msg)) == ReturnedIn(prev) + ReturnedIn(msg)
  {
  }

  /** Merging changes message boundaries only: the blocks of every role, the tool calls,
      the thinking and the tool results are what they were, in the same order. */
  lemma MergePreservesItems(messages: seq<Message>)
    ensures Collect(Merge(messages), SaidIn) == Collect(messages, SaidIn)
    ensures Collect(Merge(messages), CalledIn) == Collect(messages, CalledIn)
    ensures Collect(Merge(messages), ThoughtIn) == Collect(messages, ThoughtIn)
    ensures Collect(Merge(messages), ReturnedIn) == Collect(messages, ReturnedIn)
  {
    forall prev: Message, msg: Message | prev.role == msg.role && msg.role != Tool {
      MergedParts(prev, msg);
    }
    MergeKeepsParts(messages, SaidIn);
    MergeKeepsParts(messages, CalledIn);
    MergeKeepsParts(messages, ThoughtIn);
    MergeKeepsParts(messages, ReturnedIn);
  }

  // ---------------------------------------------------------------- from posts to messages

  /** The kinds of parts, each in the order in which it is sent. */
  datatype Kind = SaidParts | CalledParts | ThoughtParts | ReturnedParts

  function PartOf(kind: Kind): Message -> seq<Item> {
    match kind
    case SaidParts => SaidIn
    case CalledParts => CalledIn
    case ThoughtParts => ThoughtIn
    case ReturnedParts => ReturnedIn
  }

  predicate CanBeReplayed(tc: ToolCall) {
    tc.id != "" && tc.name != ""
  }

  function ShownResult(tc: ToolCall): string {
    if IsBlank(tc.result) then "(no output)" else tc.result
  }

  /** What a stored tool call contributes: the call, its result, and the text of that. */
  function CallItems(tc: ToolCall, kind: Kind): seq<Item> {
    if !CanBeReplayed(tc) then []
    else
      match kind
      case CalledParts => [Called(Call(tc.id, tc.name, tc.arguments))]
      case ReturnedParts => [Returned(tc.id, ShownResult(tc), tc.status == Failed || tc.status == Rejected)]
      case SaidParts => [Said(Tool, Text(ShownResult(tc)))]
      case ThoughtParts => []
  }

  function CallsItems(calls: seq<ToolCall>, kind: Kind): seq<Item> {
    if calls == [] then [] else CallsItems(calls[..|calls| - 1], kind) + CallItems(calls[|calls| - 1], kind)
  }

  /** A text, unless it is blank. */
  function TextItems(role: MessageRole, text: string): seq<Item> {
    if IsBlank(text) then [] else [Said(role, Text(text))]
  }

  /** An attached file: the image when it can be sent, and otherwise a note. */
  function FileItem(file: File): Item {
    match file
    case Unsupported(mimeType) => Said(User, Text("[Unsupported image type: " + mimeType + "]"))
    case Unreadable => Said(User, Text("[Error reading image data]"))
    case TooLarge(dimensions, limit) =>
      Said(User, Text("[Image omitted because its dimensions (" + dimensions + ") exceed the maximum allowed size of " + limit
                      + " pixels per dimension.]"))
    case Readable(dataUrl) => Said(User, Image(dataUrl))
  }

  function FileItems(files: seq<File>): seq<Item> {
    seq(|files|, i requires 0 <= i < |files| => FileItem(files[i]))
  }

  /** What a post contributes, from its fields. A strict hop takes no unsigned thinking. */
  function PostItems(post: Post, strict: bool, kind: Kind): seq<Item> {
    match post.role
    case SystemPost => if kind.SaidParts? then TextItems(System, post.message) else []
    case UserPost => if kind.SaidParts? then TextItems(User, post.message) + FileItems(post.files) else []
    case BotPost =>
      (match kind
       case SaidParts => TextItems(Assistant, post.message)
       case ThoughtParts =>
         if post.reasoning == "" || (strict && post.reasoningSignature == "") then []
         else [Thought(Thinking(post.reasoning, post.reasoningSignature))]
       case _ => [])
      + CallsItems(post.toolUse, kind)
  }

  /** Something of the post is left for a strict hop, if only for the record. */
  predicate SomethingLeft(post: Post) {
    match post.role
    case SystemPost => !IsBlank(post.message)
    case UserPost => !IsBlank(post.message) || post.files != []
    case BotPost =>
      || !IsBlank(post.message)
      || (exists i :: 0 <= i < |post.toolUse| && CanBeReplayed(post.toolUse[i]))
      || (post.reasoning != "" && post.reasoningSignature != "")
      || (exists i :: 0 <= i < |post.segments| && post.segments[i].TextSegment? && !IsBlank(post.segments[i].text))
      || (exists i :: 0 <= i < |post.serverTools| && post.serverTools[i].tool != "")
  }

  /** The last post of which something is left is a bot post with calls. */
  predicate AwaitsAnswer(posts: seq<Post>) {
    if posts == [] then false
    else
      var post := posts[|posts| - 1];
      if SomethingLeft(post)
      then post.role == BotPost && exists i :: 0 <= i < |post.toolUse| && CanBeReplayed(post.toolUse[i])
      else AwaitsAnswer(posts[..|posts| - 1])
  }

  /** What a conversation contributes. For a strict hop a user post that answers a tool round is
      preceded by a placeholder. */
  function ConversationItems(posts: seq<Post>, strict: bool, kind: Kind): seq<Item> {
    if posts == [] then []
    else
      var n := |posts| - 1;
      ConversationItems(posts[..n], strict, kind)
      + (if kind.SaidParts? && strict && posts[n].role == UserPost && SomethingLeft(posts[n]) && AwaitsAnswer(posts[..n])
         then [Said(Assistant, Text("(no response)"))] else [])
      + PostItems(posts[n], strict, kind)
  }

  lemma {:induction false} CollectBoth(a: seq<Message>, b: seq<Message>, part: Message -> seq<Item>)
    ensures Collect(a + b, part) == Collect(a, part) + Collect(b, part)
  {
    if b == [] {
      assert a + b == a;
    } else {
      var n := |b| - 1;
      CollectBoth(a, b[..n], part);
      assert (a + b)[..|a| + n] == a + b[..n];
      Assoc(Collect(a, part), Collect(b[..n], part), part(b[n]));
    }
  }

  lemma CollectOne(msg: Message, part: Message -> seq<Item>)
    ensures Collect([msg], part) == part(msg)
  {
    assert [msg][..0] == [];
  }

  /** What the call of a result message contributes, but for the call itself. */
  lemma ResultContributes(tc: ToolCall, kind: Kind)
    requires CanBeReplayed(tc) && !kind.CalledParts?
    ensures PartOf(kind)(ToolResult(ReplayableCall(tc)[0])) == CallItems(tc, kind)
  {
  }

  lemma {:induction false} ResultsContribute(calls: seq<ToolCall>, kind: Kind)
    requires !kind.CalledParts?
    ensures ResultsMatch(calls, kind)
  {
    if calls != [] {
      ResultsContribute(calls[..|calls| - 1], kind);
      OneMoreResult(calls, kind);
    }
  }

  predicate ResultsMatch(calls: seq<ToolCall>, kind: Kind) {
    Collect(ToolResults(Replayable(calls)), PartOf(kind)) == CallsItems(calls, kind)
  }

  lemma OneMoreResult(calls: seq<ToolCall>, kind: Kind)
    requires calls != [] && !kind.CalledParts? && ResultsMatch(calls[..|calls| - 1], kind)
    ensures ResultsMatch(calls, kind)
  {
    var n := |calls| - 1;
    var before := Replayable(calls[..n]);
    if CanBeReplayed(calls[n]) {
      var tc := ReplayableCall(calls[n])[0];
      ResultContributes(calls[n], kind);
      assert ToolResults(before + [tc]) == ToolResults(before) + [ToolResult(tc)];
      CollectBoth(ToolResults(before), [ToolResult(tc)], PartOf(kind));
      CollectOne(ToolResult(tc), PartOf(kind));
    } else {
      assert before + [] == before;
    }
  }

  lemma {:induction false} ResultsCallNothing(calls: seq<ToolCall>, k: nat)
    requires k <= |calls|
    ensures Collect(ToolResults(calls)[..k], CalledIn) == []
  {
    if k > 0 {
      ResultsCallNothing(calls, k - 1);
      assert ToolResults(calls)[..k][..k - 1] == ToolResults(calls)[..k - 1];
    }
  }

  /** The calls of a message, as items. */
  function CallsAsItems(calls: seq<Call>): seq<Item> {
    seq(|calls|, i requires 0 <= i < |calls| => Called(calls[i]))
  }

  lemma {:induction false} CallsContribute(calls: seq<ToolCall>)
    ensures CallsAsItems(Calls(Replayable(calls))) == CallsItems(calls, CalledParts)
  {
    if calls != [] {
      var n := |calls| - 1;
      CallsContribute(calls[..n]);
      var before, more := Replayable(calls[..n]), ReplayableCall(calls[n]);
      assert CallsAsItems(Calls(before + more)) == CallsAsItems(Calls(before)) + CallsAsItems(Calls(more));
    }
  }

  lemma {:induction false} FilesContribute(files: seq<File>)
    ensures FileBlocks(files) == seq(|files|, i requires 0 <= i < |files| => FileItem(files[i]).block)
  {
    if files != [] { FilesContribute(files[..|files| - 1]); }
  }

  lemma BotMessageContributes(post: Post, strict: bool, kind: Kind)
    requires post.role == BotPost
    ensures PartOf(kind)(BotMessage(NormalBot(post, strict))) ==
            match kind
            case SaidParts => TextItems(Assistant, post.message)
            case CalledParts => CallsItems(post.toolUse, kind)
            case ThoughtParts =>
              if post.reasoning == "" || (strict && post.reasoningSignature == "") then []
              else [Thought(Thinking(post.reasoning, post.reasoningSignature))]
            case ReturnedParts => []
  {
    CallsContribute(post.toolUse);
  }

  lemma {:induction false} NothingReplayable(calls: seq<ToolCall>, kind: Kind)
    ensures Replayable(calls) == [] ==> CallsItems(calls, kind) == []
    ensures Replayable(calls) != [] <==> exists i :: 0 <= i < |calls| && CanBeReplayed(calls[i])
  {
    if calls != [] {
      var n := |calls| - 1;
      NothingReplayable(calls[..n], kind);
      if i :| 0 <= i < n && CanBeReplayed(calls[i]) { assert CanBeReplayed(calls[..n][i]); }
    }
  }

  /** Each kind of a converted post is what the stored post contributes. */
  predicate Contributes(post: Post, strict: bool, kind: Kind) {
    Collect(Convert(NormalPost(post, strict)), PartOf(kind)) == PostItems(post, strict, kind)
  }

  lemma ConvertOne(post: Post)
    ensures Convert([post]) == PostMessages(post)
  {
    assert [post][..0] == [] && Convert([]) == [];
  }

  lemma PostContributes(post: Post, strict: bool, kind: Kind)
    ensures Contributes(post, strict, kind)
  {
    match post.role
    case SystemPost => PlainContributes(post, strict, kind);
    case UserPost => PlainContributes(post, strict, kind);
    case BotPost => BotContributes(post, strict, kind);
  }

  lemma PlainContributes(post: Post, strict: bool, kind: Kind)
    requires post.role != BotPost
    ensures Contributes(post, strict, kind)
  {
    if NormalPost(post, strict) == [] {
      NothingPlain(post, strict, kind);
    } else {
      SomethingPlain(post, strict, kind, PostMessages(post), PostItems(post, strict, kind));
    }
  }

  lemma NothingPlain(post: Post, strict: bool, kind: Kind)
    requires post.role != BotPost && NormalPost(post, strict) == []
    ensures Contributes(post, strict, kind)
  {
    PlainMessages(post, kind);
  }

  lemma SomethingPlain(post: Post, strict: bool, kind: Kind, messages: seq<Message>, items: seq<Item>)
    requires post.role != BotPost && NormalPost(post, strict) != []
    requires messages == PostMessages(post) && items == PostItems(post, strict, kind)
    ensures Contributes(post, strict, kind)
  {
    PlainMessages(post, kind);
    ConvertOne(post);
    CollectPlain(messages, items, PartOf(kind));
  }

  lemma CollectPlain(messages: seq<Message>, items: seq<Item>, part: Message -> seq<Item>)
    requires if messages == [] then items == [] else |messages| == 1 && part(messages[0]) == items
    ensures Collect(messages, part) == items
  {
    if messages != [] {
      assert messages == [messages[0]];
      CollectOne(messages[0], part);
    }
  }

  lemma PlainMessages(post: Post, kind: Kind)
    requires post.role != BotPost
    ensures if PostMessages(post) == [] then PostItems(post, false, kind) == []
            else |PostMessages(post)| == 1 && PartOf(kind)(PostMessages(post)[0]) == PostItems(post, false, kind)
    ensures PostItems(post, true, kind) == PostItems(post, false, kind)
  {
    UserBlocks(post);
    if post.role == UserPost && post.files == [] { assert FileItems(post.files) == []; }
  }

  lemma UserBlocks(post: Post)
    ensures seq(|Multimodal(post)|, i requires 0 <= i < |Multimodal(post)| => Said(User, Multimodal(post)[i])) ==
            TextItems(User, post.message) + FileItems(post.files)
  {
    FilesContribute(post.files);
  }

  lemma BotContributes(post: Post, strict: bool, kind: Kind)
    requires post.role == BotPost
    ensures Contributes(post, strict, kind)
  {
    var p := NormalBot(post, strict);
    NothingReplayable(post.toolUse, kind);
    BotMessageContributes(post, strict, kind);
    if Sendable(p) {
      ConvertOne(p);
      CollectOne(BotMessage(p), PartOf(kind));
      if p.toolUse != [] { RoundContributes(post, strict, kind); }
    } else {
      assert p.message == "" && p.reasoning == "";
    }
  }

  lemma RoundContributes(post: Post, strict: bool, kind: Kind)
    requires post.role == BotPost && NormalBot(post, strict).toolUse != []
    ensures var p := NormalBot(post, strict);
            Collect([BotMessage(p)] + ToolResults(p.toolUse), PartOf(kind)) == PostItems(post, strict, kind)
  {
    var p := NormalBot(post, strict);
    BotMessageContributes(post, strict, kind);
    CollectBoth([BotMessage(p)], ToolResults(p.toolUse), PartOf(kind));
    CollectOne(BotMessage(p), PartOf(kind));
    if kind.CalledParts? {
      ResultsCallNothing(p.toolUse, |p.toolUse|);
      assert ToolResults(p.toolUse)[..|p.toolUse|] == ToolResults(p.toolUse);
    } else {
      ResultsContribute(post.toolUse, kind);
    }
  }

  lemma {:induction false} KeptSegmentsAreText(segments: seq<Segment>)
    ensures (exists i :: 0 <= i < |KeptSegments(segments)| && KeptSegments(segments)[i].TextSegment?) <==>
            exists i :: 0 <= i < |segments| && segments[i].TextSegment? && !IsBlank(segments[i].text)
  {
    if segments != [] {
      var n := |segments| - 1;
      KeptSegmentsAreText(segments[..n]);
      var before := KeptSegments(segments[..n]);
      if i :| 0 <= i < |before| && before[i].TextSegment? { assert KeptSegments(segments)[i].TextSegment?; }
      if KeptSegment(segments[n]) { assert KeptSegments(segments)[|before|] == segments[n]; }
      if i :| 0 <= i < n && segments[i].TextSegment? && !IsBlank(segments[i].text) { assert segments[..n][i] == segments[i]; }
    }
  }

  /** A post is kept for a strict hop exactly when something of it is left. */
  lemma KeptMeansSomethingLeft(post: Post)
    ensures Kept(post) <==> SomethingLeft(post)
    ensures ToolRound(post) <==> post.role == BotPost && exists i :: 0 <= i < |post.toolUse| && CanBeReplayed(post.toolUse[i])
  {
    NothingReplayable(post.toolUse, CalledParts);
    if post.role == BotPost { KeptSegmentsAreText(post.segments); }
  }

  lemma {:induction false} AwaitsAnswerAfterRound(posts: seq<Post>)
    ensures AwaitsAnswer(posts) <==> LastKeptIsToolRound(posts)
  {
    if posts != [] {
      AwaitsAnswerAfterRound(posts[..|posts| - 1]);
      KeptMeansSomethingLeft(posts[|posts| - 1]);
    }
  }

  /** What the normalized and converted conversation has of a kind. */
  predicate AllContributes(posts: seq<Post>, strict: bool, kind: Kind) {
    Collect(Convert(Normalize(posts, strict)), PartOf(kind)) == ConversationItems(posts, strict, kind)
  }

  lemma {:induction false} ConversationContributes(posts: seq<Post>, strict: bool, kind: Kind)
    ensures AllContributes(posts, strict, kind)
  {
    if posts != [] {
      ConversationContributes(posts[..|posts| - 1], strict, kind);
      OneMoreContributes(posts, strict, kind);
    }
  }

  lemma OneMoreContributes(posts: seq<Post>, strict: bool, kind: Kind)
    requires posts != [] && AllContributes(posts[..|posts| - 1], strict, kind)
    ensures AllContributes(posts, strict, kind)
  {
    var n := |posts| - 1;
    var before, post := Normalize(posts[..n], strict), posts[n];
    PostContributes(post, strict, kind);
    if strict { PlaceholderIsDue(posts); }
    NormalizeOntoContributes(before, post, strict, kind);
  }

  lemma NormalizeOntoContributes(before: seq<Post>, post: Post, strict: bool, kind: Kind)
    ensures Collect(Convert(NormalizeOnto(before, post, strict)), PartOf(kind)) ==
            Collect(Convert(before), PartOf(kind))
            + (if kind.SaidParts? && strict && post.role == UserPost && NormalPost(post, strict) != [] && EndsInToolRound(before)
               then [Said(Assistant, Text("(no response)"))] else [])
            + Collect(Convert(NormalPost(post, strict)), PartOf(kind))
  {
    var kept := NormalPost(post, strict);
    if kept != [] && post.role == UserPost && strict && EndsInToolRound(before) {
      PlaceholderContributes(kind);
      PostsContribute(before, [PLACEHOLDER_POST], kind);
      PostsContribute(before + [PLACEHOLDER_POST], kept, kind);
    } else {
      PostsContribute(before, kept, kind);
    }
  }

  lemma PostsContribute(a: seq<Post>, b: seq<Post>, kind: Kind)
    ensures Collect(Convert(a + b), PartOf(kind)) == Collect(Convert(a), PartOf(kind)) + Collect(Convert(b), PartOf(kind))
  {
    ConvertBoth(a, b);
    CollectBoth(Convert(a), Convert(b), PartOf(kind));
  }

  lemma PlaceholderIsDue(posts: seq<Post>)
    requires posts != []
    ensures var n := |posts| - 1;
            && (EndsInToolRound(Normalize(posts[..n], true)) <==> AwaitsAnswer(posts[..n]))
            && (NormalPost(posts[n], true) != [] <==> SomethingLeft(posts[n]))
  {
    var n := |posts| - 1;
    HistoryEnds(posts[..n]);
    AwaitsAnswerAfterRound(posts[..n]);
    KeptMeansSomethingLeft(posts[n]);
  }

  lemma PlaceholderContributes(kind: Kind)
    ensures Collect(Convert([PLACEHOLDER_POST]), PartOf(kind)) ==
            if kind.SaidParts? then [Said(Assistant, Text("(no response)"))] else []
  {
    ConvertOne(PLACEHOLDER_POST);
    CollectOne(BotMessage(PLACEHOLDER_POST), PartOf(kind));
  }

  lemma {:induction false} ConvertBoth(a: seq<Post>, b: seq<Post>)
    ensures ConvertsInTurn(a, b)
  {
    if b == [] {
      assert a + b == a;
    } else {
      ConvertBoth(a, b[..|b| - 1]);
      assert b == b[..|b| - 1] + [b[|b| - 1]];
      ConvertsOneMore(a, b[..|b| - 1], b[|b| - 1]);
    }
  }

  predicate ConvertsInTurn(a: seq<Post>, b: seq<Post>) {
    Convert(a + b) == Convert(a) + Convert(b)
  }

  lemma ConvertsOneMore(a: seq<Post>, b: seq<Post>, post: Post)
    requires ConvertsInTurn(a, b)
    ensures ConvertsInTurn(a, b + [post])
  {
    var both, converted, front, shown := Convert(a + b), Convert(a), Convert(b), PostMessages(post);
    ConvertSnoc(a + b, post);
    ConvertSnoc(b, post);
    assert a + (b + [post]) == (a + b) + [post];
    Assoc(converted, front, shown);
    assert both + shown == converted + (front + shown);
  }

  /** What a hop is sent for a conversation. */
  function History(posts: seq<Post>, strict: bool): seq<Message> {
    if strict then Merge(Convert(Normalize(posts, true))) else Convert(Normalize(posts, false))
  }

  /** Every hop is sent exactly what the stored posts contribute, in order: the tool calls with
      their names and arguments, the results with their text and status, the thinking with its
      signature, and the texts and files of every role. */
  lemma HistoryIsTheConversation(posts: seq<Post>, strict: bool, kind: Kind)
    ensures Collect(History(posts, strict), PartOf(kind)) == ConversationItems(posts, strict, kind)
  {
    ConversationContributes(posts, strict, kind);
    if strict { MergePreservesItems(Convert(Normalize(posts, true))); }
  }

  // ---------------------------------------------------------------- blank text

  predicate NoBlankBlocks(msg: Message) {
    forall i :: 0 <= i < |ContentBlocks(msg)| && ContentBlocks(msg)[i].Text? ==> !IsBlank(ContentBlocks(msg)[i].text)
  }

  predicate NoBlankText(messages: seq<Message>) {
    forall i :: 0 <= i < |messages| ==> NoBlankBlocks(messages[i])
  }

  lemma {:induction false} FileBlocksAreNotBlank(files: seq<File>)
    ensures forall i :: 0 <= i < |FileBlocks(files)| && FileBlocks(files)[i].Text? ==> !IsBlank(FileBlocks(files)[i].text)
  {
    if files != [] {
      FileBlocksAreNotBlank(files[..|files| - 1]);
      var block := FileBlock(files[|files| - 1]);
      if block.Text? { assert block.text[0] == '['; }
    }
  }

  lemma PostMessagesAreNotBlank(post: Post, strict: bool)
    ensures forall p :: p in NormalPost(post, strict) ==> NoBlankText(PostMessages(p))
  {
    FileBlocksAreNotBlank(post.files);
    ReplayableIsValid(post.toolUse);
  }

  lemma {:induction false} ConvertIsNotBlank(posts: seq<Post>)
    requires forall i :: 0 <= i < |posts| ==> NoBlankText(PostMessages(posts[i]))
    ensures NoBlankText(Convert(posts))
  {
    if posts != [] {
      ConvertIsNotBlank(posts[..|posts| - 1]);
    }
  }

  lemma {:induction false} NormalizeIsNotBlank(posts: seq<Post>, strict: bool)
    ensures forall i :: 0 <= i < |Normalize(posts, strict)| ==> NoBlankText(PostMessages(Normalize(posts, strict)[i]))
  {
    PlaceholdersAreNotBlank();
    if posts != [] {
      NormalizeIsNotBlank(posts[..|posts| - 1], strict);
      PostMessagesAreNotBlank(posts[|posts| - 1], strict);
      assert NoBlankText(PostMessages(PLACEHOLDER_POST));
    }
  }

  lemma {:induction false} MergeIsNotBlank(messages: seq<Message>)
    requires NoBlankText(messages)
    ensures NoBlankText(Merge(messages))
  {
    if messages != [] {
      var n := |messages| - 1;
      MergeIsNotBlank(messages[..n]);
      assert NoBlankBlocks(messages[n]);
    }
  }

  /** What a strict hop is sent for any conversation: alternating roles, every tool call
      followed by exactly its results, and no blank text. */
  lemma StrictHistoryIsValid(posts: seq<Post>)
    ensures var messages := Merge(Convert(Normalize(posts, true)));
            Alternates(messages) && WellPaired(messages) && NoBlankText(messages)
  {
    var normalized := Normalize(posts, true);
    MergeAlternates(Convert(normalized));
    ConvertIsWellPaired(normalized);
    MergeKeepsOwed(Convert(normalized));
    NormalizeIsNotBlank(posts, true);
    ConvertIsNotBlank(normalized);
    MergeIsNotBlank(Convert(normalized));
  }

  /** Other hops are sent the same content unmerged. */
  lemma LooseHistoryIsValid(posts: seq<Post>)
    ensures var messages := Convert(Normalize(posts, false));
            WellPaired(messages) && NoBlankText(messages)
  {
    ConvertIsWellPaired(Normalize(posts, false));
    NormalizeIsNotBlank(posts, false);
    ConvertIsNotBlank(Normalize(posts, false));
  }

  // ------------------------------------------- user messages after tool results

  /** Bedrock sends tool results as a user message, so these two may not be neighbours. */
  predicate UserAfterTool(messages: seq<Message>) {
    exists i :: 0 <= i < |messages| - 1 && messages[i].role == Tool && messages[i + 1].role == User
  }

  predicate EndsWith(messages: seq<Message>, role: MessageRole) {
    messages != [] && messages[|messages| - 1].role == role
  }

  lemma UserAfterToolSnoc(messages: seq<Message>, msg: Message)
    ensures UserAfterTool(messages + [msg]) <==> UserAfterTool(messages) || (EndsWith(messages, Tool) && msg.role == User)
  {
    var longer := messages + [msg];
    if UserAfterTool(messages) {
      var i :| 0 <= i < |messages| - 1 && messages[i].role == Tool && messages[i + 1].role == User;
      assert longer[i].role == Tool && longer[i + 1].role == User;
    }
    if EndsWith(messages, Tool) && msg.role == User {
      assert longer[|messages| - 1].role == Tool && longer[|messages| - 1 + 1].role == User;
    }
  }

  lemma {:induction false} MergeKeepsUserAfterTool(messages: seq<Message>)
    ensures SameTurns(Merge(messages), messages)
  {
    if messages != [] {
      var n := |messages| - 1;
      MergeKeepsUserAfterTool(messages[..n]);
      assert messages == messages[..n] + [messages[n]];
      OneMoreTurn(Merge(messages[..n]), messages[..n], messages[n]);
    }
  }

  /** Both have a user message after a tool result, or neither, and both end alike. */
  predicate SameTurns(merged: seq<Message>, messages: seq<Message>) {
    && (UserAfterTool(merged) <==> UserAfterTool(messages))
    && (forall role :: EndsWith(merged, role) <==> EndsWith(messages, role))
  }

  lemma OneMoreTurn(merged: seq<Message>, messages: seq<Message>, msg: Message)
    requires SameTurns(merged, messages)
    ensures SameTurns(MergeOnto(merged, msg), messages + [msg])
  {
    UserAfterToolSnoc(messages, msg);
    if Mergeable(merged, msg) {
      MergedKeepsUserAfterTool(merged, msg);
    } else {
      UserAfterToolSnoc(merged, msg);
    }
  }

  lemma MergedKeepsUserAfterTool(merged: seq<Message>, msg: Message)
    requires Mergeable(merged, msg)
    ensures var m := |merged| - 1;
            && EndsWith(merged, msg.role)
            && (UserAfterTool(merged[..m] + [Merged(merged[m], msg)]) <==> UserAfterTool(merged))
  {
    var m := |merged| - 1;
    UserAfterToolSnoc(merged[..m], merged[m]);
    UserAfterToolSnoc(merged[..m], Merged(merged[m], msg));
    assert merged == merged[..m] + [merged[m]];
  }

  lemma {:induction false} ResultsAddNoUser(messages: seq<Message>, calls: seq<ToolCall>, k: nat)
    requires k <= |calls|
    ensures UserAfterTool(messages + ToolResults(calls)[..k]) <==> UserAfterTool(messages)
    ensures k > 0 ==> EndsWith(messages + ToolResults(calls)[..k], Tool)
  {
    if k == 0 {
      assert messages + ToolResults(calls)[..0] == messages;
    } else {
      ResultsAddNoUser(messages, calls, k - 1);
      UserAfterToolSnoc(messages + ToolResults(calls)[..k - 1], ToolResults(calls)[k - 1]);
      assert messages + ToolResults(calls)[..k] == (messages + ToolResults(calls)[..k - 1]) + [ToolResults(calls)[k - 1]];
    }
  }

  /** What one converted post does to the end of the history. */
  lemma PostMessagesAppended(messages: seq<Message>, post: Post)
    ensures var shown := PostMessages(post);
            var longer := messages + shown;
            && (UserAfterTool(longer) <==>
                  UserAfterTool(messages) || (EndsWith(messages, Tool) && post.role == UserPost && shown != []))
            && (shown == [] ==> longer == messages)
            && (shown != [] ==> (EndsWith(longer, Tool) <==> post.role == BotPost && post.toolUse != []))
  {
    var shown := PostMessages(post);
    if shown == [] {
      assert messages + shown == messages;
    } else if post.role == BotPost && post.toolUse != [] {
      var calling := messages + [BotMessage(post)];
      UserAfterToolSnoc(messages, BotMessage(post));
      ResultsAddNoUser(calling, post.toolUse, |post.toolUse|);
      assert ToolResults(post.toolUse)[..|post.toolUse|] == ToolResults(post.toolUse);
      assert messages + shown == calling + ToolResults(post.toolUse);
    } else {
      assert shown == [shown[0]];
      UserAfterToolSnoc(messages, shown[0]);
    }
  }

  predicate Kept(post: Post) {
    NormalPost(post, true) != []
  }

  /** The kept part of the post produces a chat message. */
  predicate Rendered(post: Post) {
    Kept(post) && PostMessages(NormalPost(post, true)[0]) != []
  }

  /** A bot post with tool calls that can be replayed. */
  predicate ToolRound(post: Post) {
    post.role == BotPost && Replayable(post.toolUse) != []
  }

  predicate LastRenderedIsToolRound(posts: seq<Post>) {
    if posts == [] then false
    else if Rendered(posts[|posts| - 1]) then ToolRound(posts[|posts| - 1])
    else LastRenderedIsToolRound(posts[..|posts| - 1])
  }

  predicate LastKeptIsToolRound(posts: seq<Post>) {
    if posts == [] then false
    else if Kept(posts[|posts| - 1]) then ToolRound(posts[|posts| - 1])
    else LastKeptIsToolRound(posts[..|posts| - 1])
  }

  /** A user post that follows a tool round with nothing rendered in between, although
      some post in between was kept. */
  predicate HiddenGap(posts: seq<Post>) {
    exists k {:trigger posts[..k]} :: 0 <= k < |posts| &&
      posts[k].role == UserPost && Kept(posts[k]) &&
      LastRenderedIsToolRound(posts[..k]) && !LastKeptIsToolRound(posts[..k])
  }

  lemma HiddenGapSnoc(posts: seq<Post>)
    requires posts != []
    ensures var n := |posts| - 1;
            var ends := posts[n].role == UserPost && Kept(posts[n]) &&
                        LastRenderedIsToolRound(posts[..n]) && !LastKeptIsToolRound(posts[..n]);
            HiddenGap(posts) <==> HiddenGap(posts[..n]) || ends
  {
    var n := |posts| - 1;
    assert forall k :: 0 <= k <= n ==> posts[..n][..k] == posts[..k];
    if HiddenGap(posts[..n]) {
      var k :| 0 <= k < n && posts[..n][k].role == UserPost && Kept(posts[..n][k]) &&
               LastRenderedIsToolRound(posts[..n][..k]) && !LastKeptIsToolRound(posts[..n][..k]);
      assert posts[..k] == posts[..n][..k];
    }
    if HiddenGap(posts) {
      var k :| 0 <= k < |posts| && posts[k].role == UserPost && Kept(posts[k]) &&
               LastRenderedIsToolRound(posts[..k]) && !LastKeptIsToolRound(posts[..k]);
      if k < n { assert posts[..n][k] == posts[k] && posts[..n][..k] == posts[..k]; }
    }
  }

  /** How the normalized and the converted history end. */
  lemma {:induction false} HistoryEnds(posts: seq<Post>)
    ensures var normalized := Normalize(posts, true);
            && (EndsInToolRound(normalized) <==> LastKeptIsToolRound(posts))
            && (EndsWith(Convert(normalized), Tool) <==> LastRenderedIsToolRound(posts))
            && (UserAfterTool(Convert(normalized)) <==> HiddenGap(posts))
  {
    if posts != [] {
      var n := |posts| - 1;
      HistoryEnds(posts[..n]);
      HiddenGapSnoc(posts);
      OnePostEnds(posts[..n], posts[n]);
    }
  }

  lemma OnePostEnds(posts: seq<Post>, post: Post)
    ensures var normalized := Normalize(posts, true);
            var longer := NormalizeOnto(normalized, post, true);
            var exposed := post.role == UserPost && Kept(post) && EndsWith(Convert(normalized), Tool) && !EndsInToolRound(normalized);
            && (EndsInToolRound(longer) <==> if Kept(post) then ToolRound(post) else EndsInToolRound(normalized))
            && (EndsWith(Convert(longer), Tool) <==> if Rendered(post) then ToolRound(post) else EndsWith(Convert(normalized), Tool))
            && (UserAfterTool(Convert(longer)) <==> UserAfterTool(Convert(normalized)) || exposed)
  {
    var normalized := Normalize(posts, true);
    var kept := NormalPost(post, true);
    if kept == [] {
      assert normalized + kept == normalized;
    } else if post.role == UserPost {
      UserPostEnds(normalized, post);
    } else {
      assert NormalizeOnto(normalized, post, true) == normalized + [kept[0]];
      ConvertSnoc(normalized, kept[0]);
      PostMessagesAppended(Convert(normalized), kept[0]);
    }
  }

  lemma UserPostEnds(normalized: seq<Post>, post: Post)
    requires post.role == UserPost && Rendered(post) && NormalPost(post, true) == [post]
    ensures var longer := NormalizeOnto(normalized, post, true);
            && !EndsInToolRound(longer) && !EndsWith(Convert(longer), Tool)
            && (UserAfterTool(Convert(longer)) <==>
                  (UserAfterTool(Convert(normalized)) || (EndsWith(Convert(normalized), Tool) && !EndsInToolRound(normalized))))
  {
    var before := normalized;
    if EndsInToolRound(normalized) {
      before := normalized + [PLACEHOLDER_POST];
      ConvertSnoc(normalized, PLACEHOLDER_POST);
      PostMessagesAppended(Convert(normalized), PLACEHOLDER_POST);
    }
    assert NormalizeOnto(normalized, post, true) == before + [post];
    ConvertSnoc(before, post);
    PostMessagesAppended(Convert(before), post);
  }

  lemma ConvertSnoc(posts: seq<Post>, post: Post)
    ensures Convert(posts + [post]) == Convert(posts) + PostMessages(post)
  {
    assert (posts + [post])[..|posts|] == posts;
  }

  /** A strict hop is sent a user message right after a tool result exactly when the
      conversation has a hidden gap: the placeholder answer looks at the last kept post,
      but only rendered posts separate the two messages. */
  lemma UserAfterToolExactlyInHiddenGap(posts: seq<Post>)
    ensures UserAfterTool(Merge(Convert(Normalize(posts, true)))) <==> HiddenGap(posts)
  {
    HistoryEnds(posts);
    MergeKeepsUserAfterTool(Convert(Normalize(posts, true)));
  }

  lemma {:induction false} NoHiddenPostNoGap(posts: seq<Post>)
    requires forall i :: 0 <= i < |posts| && Kept(posts[i]) ==> Rendered(posts[i])
    ensures LastRenderedIsToolRound(posts) == LastKeptIsToolRound(posts)
    ensures !HiddenGap(posts)
  {
    if posts != [] {
      NoHiddenPostNoGap(posts[..|posts| - 1]);
      HiddenGapSnoc(posts);
    }
  }

  /** Server-run tool activity and stored text segments keep a post without producing a
      chat message; either one can hide between a tool round and a user post. */
  lemma HiddenGapHappens()
    ensures var call := ToolCall("c1", "search", "{}", "found", Succeeded);
            var round := Post(BotPost, "", [], [call], "", "", [], []);
            var activity := Post(BotPost, "", [], [], "", "", [ServerToolUse("s1", "web_search", "")], []);
            var segment := Post(BotPost, "", [], [], "", "", [], [TextSegment("x")]);
            var thanks := Post(UserPost, "x", [], [], "", "", [], []);
            HiddenGap([round, activity, thanks]) && HiddenGap([round, segment, thanks])
  {
    var call := ToolCall("c1", "search", "{}", "found", Succeeded);
    var round := Post(BotPost, "", [], [call], "", "", [], []);
    var activity := Post(BotPost, "", [], [], "", "", [ServerToolUse("s1", "web_search", "")], []);
    var segment := Post(BotPost, "", [], [], "", "", [], [TextSegment("x")]);
    var thanks := Post(UserPost, "x", [], [], "", "", [], []);
    assert !IsBlank("x") && !IsBlank("found") by { assert !IsSpace("x"[0]) && !IsSpace("found"[0]); }
    assert Replayable([call]) == [call] by { assert [call][..0] == []; }
    assert Rendered(round);
    assert NormalBot(activity, true) == activity && activity.serverTools[0].tool != "";
    HiddenBetween(round, activity, thanks);
    assert KeptSegments([TextSegment("x")]) == [TextSegment("x")] by { assert [TextSegment("x")][..0] == []; }
    assert NormalBot(segment, true) == segment && segment.segments[0].TextSegment?;
    HiddenBetween(round, segment, thanks);
  }

  lemma HiddenBetween(round: Post, hidden: Post, thanks: Post)
    requires ToolRound(round) && Rendered(round)
    requires Kept(hidden) && !Rendered(hidden) && !ToolRound(hidden)
    requires thanks.role == UserPost && Kept(thanks)
    ensures HiddenGap([round, hidden, thanks])
  {
    var posts := [round, hidden, thanks];
    assert posts[..2] == [round, hidden];
    assert posts[..2][..1] == [round];
    assert LastRenderedIsToolRound([round]);
    assert LastRenderedIsToolRound(posts[..2]) && !LastKeptIsToolRound(posts[..2]);
  }
}
