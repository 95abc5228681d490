# Verified model of the agents plugin's core

This project models the step-by-step core of the Go backend of the Mattermost agents plugin in
Dafny and proves what that code is relied on for. Each module follows one component of the
backend; loops and objects of the source are methods and classes here, proved against
specification functions, and the main results are lemmas about those functions or about all runs
of a state machine. `dafny verify dfyconfig.toml` verifies everything with the default limits; the
proofs are kept small so that they do not depend on the solver's random seed.

- `AutoReplyCache`: the cluster of per-node caches over one table of auto-reply settings. A node
  performs each operation in two atomic steps, a database round-trip and a cache update, under its
  write mutex; invalidations are messages. A stale entry is always explained, and every cluster
  left alone converges.
- `ServiceLLMRegistry`: provider clients that are built lazily, leased, retired and shut down while
  requests, reconciliations, drain goroutines and deactivation interleave.
- `ChatMessages`: rewriting a conversation for strict providers: normalization, conversion and
  merging.
- `StreamEvents`, `ChatStream`, `ResponsesStream`: decoding the two provider streams.
- `ArtifactScanner`: the scan for the place of the artifact bridge script, compared with the comment
  states of the WHATWG HTML standard.
- `EmbeddingBatches`, `TextSplitter`, `AmbientLimiter`, `AmbientClassifier`: greedy cutting, size and
  rate bounds.
- `BotRegistry`: skipping and repeating registry rebuilds, and pairing bots with their accounts.
- `LegacyMigrations`, `Licenses`, `LicenseGates`, `AgentSelection`: configurations over migrations and
  saves.
- `LLMServices`, `FallbackChains`: fallback chains, who may use them, and their registration.
- `RenameSaga`: saving a renamed agent with failures at every call.
- `ThreadPosts`: the previous post of a thread, read from a map.
- `Wrappers`, `Collections`, `GoStrings`, `ByteStrings`: what the models share.

## What the code does differently from what one would expect

Each of these is a lemma with the inputs for which it happens.

- A stored bot post that is kept but produces no chat message (server-tool activity only, or stored
  text segments only) lets a user message follow a tool result: `ChatMessages.HiddenGapHappens`.
- Reasoning that arrives after the first reasoning end is sent and never ended, since an accumulator is
  complete once and for all: `ChatStream.SecondThoughtsAreLost`, `ResponsesStream.SecondThoughtsAreLost`.
  A chat stream that fails or finishes in tool calls while its reasoning is open returns before ending
  it, and so does a Responses stream that fails or stops before text or a completion. These are all cases:
  `ChatStream.ReasoningIsLostExactly`, `ResponsesStream.ReasoningIsLostExactly`.
- The ambient limiter reads the clock before it takes the lock, and an earlier time gives credit
  twice: `AmbientLimiter.DisorderBreaksTheBound`. What holds in any order is
  `AmbientLimiter.WindowBoundInAnyOrder`.
- For the same reason dropping a channel that has refilled can change a decision, although the comment
  says that it changes none: a nanosecond is enough in `AmbientLimiter.NanosecondTellsADroppedBucket`.
  When it does is `AmbientLimiter.DroppedIsDecidedAlikeExactly`.
- Function calls that share an output index mix: `ResponsesStream.SharedIndexMixesCalls`, and exactly when
  is `ResponsesStream.CallsDoNotMixExactly`.
- Creations that are checked at the same time can exceed the agent limit:
  `AgentSelection.TwoCheckedTogetherExceed`, `AgentSelection.CheckedTogetherExceedExactly`.
- A bot rebuild whose lineup cannot be copied, an error that the code provides for, leaves the new
  registry beside the old remembered lineup: `BotRegistry.FailedCopyHidesTheRebuild`. When a skip is
  then wrong is `BotRegistry.SkipIsWrongExactly`.
- A refresh that is forced when a call has read its lineup under the lock, and not rebuilt it yet, can be
  lost: the rebuild clears the force and the next check may skip: `BotRegistry.LateForceIsLost`. This is
  the only case: `BotRegistry.ForcedRefreshIsLostExactly`.
- `servicesAreIdentical` says that it compares all fields, and does not. A migrated bot takes over
  another region in `LegacyMigrations.RegionIsTakenOver`; when a bot keeps its settings is
  `LegacyMigrations.MigratedBotKeepsItsSettingsExactly`.
- A remote server that moves to a URL with stricter tool defaults keeps its policies without a license
  check: `LicenseGates.MovedServerKeepsItsPolicy`. Moving is never checked, and only stored tools profit:
  `LicenseGates.MovingIsNotGated`, `LicenseGates.OnlyStoredToolsGoBeyond`.
- Turning a plugin server on is checked exactly when it is stored and turned off, so one that is new may
  be stored turned on: `LicenseGates.OneMorePluginServer`, `LicenseGates.NewPluginServersAreNotGated`.
- A rename call, or a store update, that takes effect and reports an error leaves account and stored
  agent with different names and no refresh: the condition `Misled` of `RenameSaga.UpdateAgent`.
- The previous thread post depends on map order exactly when no candidate is later than all others
  (`ThreadPosts.ReadingDoesNotMatterExactly`). By `ThreadPosts.OrderedNewestTiesHaveALatest` that takes
  newest candidates some of which are in the thread's order and others not; it happens in
  `ThreadPosts.MixedTiesCanMatter`, and need not: `ThreadPosts.MixedTiesNeedNotMatter`.

## Model

| member | source | states |
|---|---|---|
| `AutoReplyCache.StepKeepsInvariant` | autoreply/service.go:78-246 | Every step of every node (a request, the second half of an operation, a broadcast, a refresh, a failure) keeps: an entry that differs from the servable row of the table is explained by the node's own operation in progress, a message on its way, a peer that has not notified yet, or a lost message |
| `AutoReplyCache.RunKeepsInvariant` | autoreply/service.go:78-246 | The same over every interleaving of Set, Delete, RefreshChannel and LoadCache on any number of nodes |
| `AutoReplyCache.StaleEntryIsExplained` | autoreply/service.go:78-246 | A node that is between operations serves anything but the table's servable row only if an invalidation is pending for it, a peer still owes one, or one was lost |
| `AutoReplyCache.OnlyKnownModesAreServed` | autoreply/service.go:78-99 | In every run, whatever rows other plugin versions have stored, a node caches only settings of modes that its own version can store, each under its channel |
| `AutoReplyCache.LosslessRunLosesNothing` | autoreply/service.go:200-246 | A run without failed reads and failed broadcasts adds nothing to what was lost before |
| `AutoReplyCache.LoadedNodeIsExplained` | autoreply/service.go:73-99 | Once a node has loaded its cache, and while every broadcast of its peers goes out and its own re-reads succeed, an entry it serves between operations differs from the table only if an invalidation is pending for it or a peer still owes one, whatever happened before the load |
| `AutoReplyCache.LoadedNodeServesTheTable` | autoreply/service.go:73-99 | At quiescence such a node has exactly the rows of the table whose modes its version can store |
| `AutoReplyCache.QuiescentServesTable` | autoreply/service.go:78-99 | At quiescence a node has a setting for a channel exactly if the table has one whose mode its version can store, and then that one, for every channel whose invalidation has not been lost since the node read it |
| `AutoReplyCache.InternalStepWorks` | autoreply/service.go:161-246 | Every step other than a request uses up work that is left, also when a broadcast creates messages for all peers |
| `AutoReplyCache.InternalRunsAreBounded` | autoreply/service.go:161-246 | Without further requests no schedule is longer than the work left |
| `AutoReplyCache.NotStuck` | autoreply/service.go:161-246 | A cluster that is not quiescent can always take a step that loses nothing |
| `AutoReplyCache.Converges` | autoreply/service.go:78-246 | From every reachable state, once requests stop and messages get through, the cluster reaches quiescence with the table unchanged and every node serving it for each channel of which nothing was lost before; a node of which nothing was lost holds exactly the servable rows |
| `AutoReplyCache.Rejection` | autoreply/service.go:119-157 | The first of the nine validations, in the order of the code, that a setting fails, and none exactly when it passes all; a NUL among the instructions is one of them |
| `AutoReplyCache.Service.Set` | autoreply/service.go:119-174 | Stores the row, caches it and owes the peers a notice exactly when the setting is accepted and the store succeeds; otherwise nothing changes |
| `AutoReplyCache.Service.Delete` | autoreply/service.go:176-198 | Removes the row and the cache entry and owes a notice, or nothing when the store fails |
| `AutoReplyCache.Service.RefreshChannel` | autoreply/service.go:200-234 | Caches the stored row if this version can store its mode, drops the entry otherwise, and leaves the other entries; a read error changes nothing |
| `AutoReplyCache.Service.LoadCache` | autoreply/service.go:73-99 | Caches exactly the stored rows whose modes this version can store; a read error changes nothing |
| `AutoReplyCache.Service.GetCached` | autoreply/service.go:101-110 | The cached entry or none |
| `ServiceLLMRegistry.StepKeepsInvariant` | bots/service_llm_registry.go:33-195 | Every atomic step of a request, a reconciliation, a drain goroutine or a deactivation keeps: at most one shutdown per client, one owner until then, a lease count equal to the unreleased leases, and leases that match the requester |
| `ServiceLLMRegistry.GuardSuffices` | bots/service_llm_registry.go:55-195 | In reachable states a step is possible whenever its program counter allows it; the side conditions of the model never hold one back |
| `ServiceLLMRegistry.RunKeepsInvariant` | bots/service_llm_registry.go:33-195 | The invariant over every interleaving |
| `ServiceLLMRegistry.EveryClientIsAccountedFor` | bots/service_llm_registry.go:55-195 | In every run a built client is shut down at most once; until then it is cached, retired, pending shutdown or unpublished; inUse equals the unreleased leases although release may be called again; and a lease carries exactly the requested service and fallback chain |
| `ServiceLLMRegistry.ReconcileKeepsTheConfigured` | bots/service_llm_registry.go:108-131 | In every reachable state a reconciliation keeps cached exactly the clients whose service is the configured one and whose fallback chain is the one it resolves to, and retires the others |
| `ServiceLLMRegistry.LeasedClientsStayUp` | bots/service_llm_registry.go:55-195 | In every run without deactivation no client is shut down while it is leased or cached |
| `ServiceLLMRegistry.RetiredNeverGainsLease` | bots/service_llm_registry.go:151-188 | From the moment an entry has left the cache no run gives it another lease, so a drain that has waited cannot be overtaken |
| `ServiceLLMRegistry.RetiredIsGone` | bots/service_llm_registry.go:151-170 | Every retired or collected entry is in that state |
| `ServiceLLMRegistry.IdleRetiredDrains` | bots/service_llm_registry.go:151-170 | A retired entry without leases can always be shut down and forgotten by its goroutine alone |
| `ServiceLLMRegistry.DeactivationReachesEveryClient` | bots/service_llm_registry.go:133-149 | Deactivation shuts down every client that existed, leased or not, except one that is being built and is published afterwards |
| `ServiceLLMRegistry.EqualRequestsBuildOneClient` | bots/service_llm_registry.go:55-106 | Requests for one service that ask for one configuration, with no reconciliation or deactivation between them, build one client, and none if one was there, in every interleaving; clients leased earlier may have had another configuration and may still be in use |
| `ServiceLLMRegistry.ServiceLLMs.LeaseServiceLLM` | bots/service_llm_registry.go:55-106 | A lease on a client of this service and this fallback chain: the cached one if it has both, else a new one that takes its place, the old one being retired |
| `ServiceLLMRegistry.ServiceLLMs.LeaseCached` | bots/service_llm_registry.go:172-188 | A lease on the cached client exactly if its service and its fallback chain are the given ones; otherwise nothing changes |
| `ServiceLLMRegistry.ServiceLLMs.ReconcileServiceLLMs` | bots/service_llm_registry.go:108-131 | The loop leaves cached exactly the clients whose service and resolved chain are still configured so, and retires the others |
| `ServiceLLMRegistry.ServiceLLMs.ShutdownServiceLLMs` | bots/service_llm_registry.go:133-149 | Empties the registry and shuts down every client it owned, once each |
| `ServiceLLMRegistry.ServiceLLMs.ReleaseLease` | bots/service_llm_registry.go:190-195 | The first call for a lease drops it, further calls change nothing |
| `LLMServices.FollowIsAPath` | llm/configuration.go:350-386 | A resolved chain visits only valid configured services, none twice, each the fallback of the one before |
| `LLMServices.ChainIsTheWalk` | llm/configuration.go:350-386 | A chain is resolved if and only if the walk along the fallbacks from the primary, over valid services and none twice, ends at a service without a fallback, and then it is that walk |
| `LLMServices.ChainFailsExactly` | llm/configuration.go:350-386 | It fails, and with this error, if and only if the walk comes to a service that was visited, is missing or is not valid |
| `LLMServices.ResolveFallbackChain` | llm/configuration.go:350-386 | The chain, or the first cycle, missing or invalid hop |
| `LLMServices.FirstByIdFindsEarliest` | llm/configuration.go:327-341 | A lookup finds a service exactly for the configured IDs, and the earliest one |
| `LLMServices.ServiceLookup` | llm/configuration.go:327-341 | The loop computes that lookup |
| `ChatMessages.NormalizePosts` | bifrost/post_normalization.go:29-63 | The loop keeps each post's normal form and puts a placeholder answer between a tool round and a user post for strict hops |
| `ChatMessages.NormalizeBotPost` | bifrost/post_normalization.go:65-86 | A bot post's normal form and whether anything of it can be sent |
| `ChatMessages.NormalFields` | bifrost/post_normalization.go:65-86 | Field by field what that form is |
| `ChatMessages.KeptSegmentsAreTheRest` | bifrost/post_normalization.go:65-75 | The segments other than blank text, in order |
| `ChatMessages.ReplayableToolCalls` | bifrost/post_normalization.go:88-104 | Drops calls without ID or name and fills in blank results |
| `ChatMessages.ConvertMessages` | bifrost/chat.go:236-360 | The loop computes the messages of the posts, merged for strict hops; HistoryIsTheConversation says what they hold |
| `ChatMessages.HistoryIsTheConversation` | bifrost/chat.go:236-399 | For every conversation and every hop, in order: the calls sent are the IDs, names and arguments of the stored calls that have an ID and a name; the results are their IDs, result texts and whether they failed or were rejected; the thinking is the reasoning with its signature; the texts and files of every role are those of the posts, blank ones aside, and for a strict hop a placeholder answer where a user post follows a tool round |
| `ChatMessages.KeptMeansSomethingLeft` | bifrost/post_normalization.go:29-86 | When a post counts as kept for that placeholder, in terms of its fields |
| `ChatMessages.AppendToolRound` | bifrost/chat.go:304-343 | The loop appends an assistant message and one result per call |
| `ChatMessages.MultimodalContent` | bifrost/bifrost.go:594-641 | Text first, then one block per file |
| `ChatMessages.MergeConsecutiveSameRoleMessages` | bifrost/chat.go:362-399 | The loop merges neighbours of the same role other than tool results |
| `ChatMessages.NormalizeIsIdempotent` | bifrost/post_normalization.go:29-104 | Normalizing twice is normalizing once |
| `ChatMessages.OnlyPlaceholdersAreAdded` | bifrost/post_normalization.go:29-63 | Normalization keeps each post's own normal form in order and adds nothing but placeholder answers |
| `ChatMessages.ReplayableIsValid` | bifrost/post_normalization.go:88-104 | Every replayed call has an ID, a name and a result that is not blank |
| `ChatMessages.ConvertIsWellPaired` | bifrost/chat.go:304-343 | For every conversation, each assistant message with calls is followed by exactly its results in order, and no result stands elsewhere |
| `ChatMessages.MergeKeepsOwed` | bifrost/chat.go:362-399 | Merging leaves the results still owed at every point unchanged |
| `ChatMessages.MergeAlternates` | bifrost/chat.go:362-399 | After merging, neighbours of the same role are tool results |
| `ChatMessages.MergePreservesItems` | bifrost/chat.go:362-416 | Merging keeps, in order, every role's blocks, the tool calls, the thinking and the tool results |
| `ChatMessages.StrictHistoryIsValid` | bifrost/chat.go:236-399 | For every conversation a strict hop is sent alternating, tool-paired messages without blank text |
| `ChatMessages.LooseHistoryIsValid` | bifrost/chat.go:236-360 | Other hops are sent tool-paired messages without blank text |
| `ChatMessages.UserAfterToolExactlyInHiddenGap` | bifrost/post_normalization.go:29-63 | A strict hop is sent a user message right after a tool result exactly when a post that is kept but renders nothing stands between a tool round and the next user post |
| `ChatMessages.NoHiddenPostNoGap` | bifrost/post_normalization.go:29-63 | Without posts that are kept but render nothing this never happens |
| `ChatMessages.HiddenGapHappens` | bifrost/chat.go:280-351 | It does happen: for a bot post with server-tool activity only, and for one with stored text segments only |
| `StreamEvents.ClosedKeepsOpen` | bifrost/stream.go:193-207 | Ending the reasoning keeps the stream in order: one end, carrying all reasoning so far |
| `StreamEvents.ReasoningAccumulator.EmitEnd` | bifrost/stream.go:193-207 | Sends the end once, unless nothing accumulated |
| `StreamEvents.OneMoreInOrder` | bifrost/stream.go:185-207 | When one more event keeps reasoning in order |
| `StreamEvents.TerminalFinishes` | bifrost/chat.go:151-179 | A terminal event on an open stream makes a well-formed one and changes neither its reasoning nor whether that has ended |
| `StreamEvents.CompleteWhenEnded` | bifrost/stream.go:185-207 | A stream that ends has all its reasoning in a reasoning end exactly when there was none, or it was ended and none came later |
| `StreamEvents.SortedIsUnique` | bifrost/stream.go:164-168 | The sorted keys of a buffer map are determined by the map, so map order does not show |
| `StreamEvents.FlushToolCallBuffers` | bifrost/stream.go:162-183 | The loop turns the buffers into calls in key order |
| `StreamEvents.FlushKeepsEveryCall` | bifrost/stream.go:162-183 | Every kept buffer becomes one call, in key order, with the name, the arguments and the ID collected for it, empty arguments being an empty object and a missing ID being minted |
| `StreamEvents.FlushMakesTheCalls` | bifrost/stream.go:162-183 | The calls are those of exactly the buffers, or of those with a name, in sorted key order |
| `StreamEvents.NamedKeysAreKept` | bifrost/stream.go:162-183 | No named buffer is dropped |
| `StreamEvents.FlushedCallsCanBeAnswered` | bifrost/stream.go:162-183 | A named call always has an ID, minted IDs differ, arguments are never empty, and with requireName no call is nameless |
| `StreamEvents.ToolArgsToJSON` | bifrost/stream.go:23-31 | Never empty, and the arguments themselves when there are any |
| `ChatStream.StreamChat` | bifrost/chat.go:16-179 | The loop sends the events of the chunks read: the answer to each chunk, the end of reasoning that is left open, and one terminal event; they are well formed |
| `ChatStream.AllEvents` | bifrost/chat.go:56-179 | Every event of every stream, from the chunks alone: text, reasoning, where and with which text and signature the reasoning is ended, usage, and the terminal event |
| `ChatStream.FinishedCallsAreEmitted` | bifrost/chat.go:99-158 | After a finish in tool calls the stream ends in the calls of all deltas up to the last such finish, in index order: the arguments are those of the deltas with the index, joined in order, the ID and name the last ones these give |
| `ChatStream.PendingCallsAreEmitted` | bifrost/chat.go:160-179 | Without one it ends in the calls of all deltas that got a name, put together in the same way, or without calls if there are none |
| `ChatStream.ChatEventsAreWellFormed` | bifrost/chat.go:56-179 | Every stream has exactly one terminal event, last; at most one reasoning end, which carries exactly the reasoning before it; and no text between the first reasoning and it |
| `ChatStream.TextAndReasoningArrive` | bifrost/chat.go:56-92 | The reader gets exactly the text and reasoning of the chunks before a failure, in order |
| `ChatStream.DeltasReachTheirCall` | bifrost/chat.go:99-117 | A call collects exactly the deltas of its own index: their arguments joined in order, and the last ID and name they give, however calls are interleaved |
| `ChatStream.LastFinishDecidesTheCalls` | bifrost/chat.go:119-133 | The calls of the last tool_calls finish are those of the deltas up to it |
| `ChatStream.ReasoningIsLostExactly` | bifrost/chat.go:56-179 | For every stream: reasoning that was sent is in no reasoning end exactly when some of it came after the reasoning had been closed, or when it was still open and the stream failed or finished in tool calls |
| `ChatStream.SecondThoughtsAreLost` | bifrost/chat.go:70-97 | Thoughts, text and thoughts again: the second thoughts are in no reasoning end, in a stream without tool calls |
| `ResponsesStream.StreamResponses` | bifrost/responses.go:343-707 | The loop sends the events of the chunks read: the answer to each and one terminal event, and they are well formed |
| `ResponsesStream.AllEvents` | bifrost/responses.go:371-707 | Every event of every stream, from the chunks alone: text, reasoning and its end with its signature, numbered citations, sources, tool activity, usage, and the terminal event |
| `ResponsesStream.ReadCallsAreEmitted` | bifrost/responses.go:530-707 | A stream ends in an error after a failure, else in one call for each ID that got a name, in the order of the IDs: the arguments are the last final ones that are not empty, followed by the first arguments and deltas after them joined in order, or an empty object; the name is the last one given |
| `ResponsesStream.SourcesAreTheUrls` | bifrost/responses.go:611-687 | The cited sources are the URLs that are not blank, each once |
| `ResponsesStream.RouteArguments` | bifrost/responses.go:530-569 | An argument delta is appended to the call its item names, else to the call registered for its output index, else to none, and no other call changes |
| `ResponsesStream.RegisterItem` | bifrost/responses.go:578-609 | A new function call gets its output index, and its first arguments are appended to its buffer; no other call changes |
| `ResponsesStream.FinishItem` | bifrost/responses.go:611-638 | Final values replace what was collected unless they are empty |
| `ResponsesStream.Complete` | bifrost/responses.go:640-687 | Reasoning end, citations, usage and tool calls, in this order |
| `ResponsesStream.ResponsesEventsAreWellFormed` | bifrost/responses.go:371-707 | Every stream has exactly one terminal event, last, and its reasoning in order |
| `ResponsesStream.RoutesAreRegistered` | bifrost/responses.go:584-609 | An index has a route exactly when some function call registered it |
| `ResponsesStream.OrphansChangeNothing` | bifrost/responses.go:530-569 | Deleting the item-less deltas whose index no earlier function call registered leaves every event unchanged, the tool calls included |
| `ResponsesStream.CallsDoNotMix` | bifrost/responses.go:530-638 | A call whose output indexes no other call registers is put together from its own chunks only, for every interleaving |
| `ResponsesStream.SharedIndexMixesCalls` | bifrost/responses.go:562-609 | With a shared output index another call's chunks can change the result |
| `ResponsesStream.CallsDoNotMixExactly` | bifrost/responses.go:530-638 | For every stream: a call is put together as from its own chunks alone, if and only if no characters for its indexes have gone to a call that took over an index since its arguments were last final |
| `ResponsesStream.ReadUntilTheEnd` | bifrost/responses.go:371-707 | A chunk is read exactly when no earlier one is a failure, or a completion with calls to emit |
| `ResponsesStream.EndsStreamMeans` | bifrost/responses.go:371-687 | A chunk ends the stream exactly if it is a failure, or a completion after which some call collected so far has a name |
| `ResponsesStream.EmittedCallsAreTheRouted` | bifrost/responses.go:673-707 | The tool calls that are emitted are the named ones routed from all chunks read, and the stream ends without tool calls only if there are none |
| `ResponsesStream.TextArrives` | bifrost/responses.go:435-446 | The reader gets exactly the text of the chunks read |
| `ResponsesStream.ReasoningIsLostExactly` | bifrost/responses.go:435-707 | For every stream: reasoning that was sent is in no reasoning end exactly when some of it came after it had been closed, or when neither text nor a completion that was read came after it began |
| `ResponsesStream.SecondThoughtsAreLost` | bifrost/responses.go:435-461 | Thoughts, text and thoughts again lose the second thoughts, although the response is completed |
| `ArtifactScanner.CommentEnd` | api/api_artifacts.go:260-278 | The substring search finds the position where the comment states of the WHATWG HTML standard, sections 13.2.5.43 to 13.2.5.52, close the comment, or -1 |
| `ArtifactScanner.TokenizeFindsFirstClose` | api/api_artifacts.go:260-278 | The state machine closes at the first byte that completes a closing sequence, and nowhere if there is none |
| `ArtifactScanner.StandardClosesFirst` | api/api_artifacts.go:260-278 | The standard closes a comment at e exactly when e is the first position that one of the closing sequences ends at, and -1 stands for none |
| `ArtifactScanner.ArtifactBridgeInsertPos` | api/api_artifacts.go:229-258 | The loop ends, and stops after a byte order mark, white space, complete comments and complete doctypes, where none of these comes next |
| `ArtifactScanner.LeadingItemMeans` | api/api_artifacts.go:229-298 | Byte by byte what such an item is |
| `ArtifactScanner.LeadingEndIsUnique` | api/api_artifacts.go:229-258 | There is only one such position |
| `ArtifactScanner.InjectArtifactBridge` | api/api_artifacts.go:210-227 | The document up to that position, the script, and the rest of the document |
| `ArtifactScanner.LeadingPrefix` | api/api_artifacts.go:229-258 | The leading items are recognized by their own bytes, whatever follows |
| `ArtifactScanner.RescanFindsTheScript` | api/api_artifacts.go:210-258 | Rescanning the injected document returns the same position |
| `ArtifactScanner.TagEndIsFirst` | api/api_artifacts.go:247-255 | A doctype ends at the first closing bracket |
| `EmbeddingBatches.SplitEmbeddingBatches` | bifrost/embeddings.go:153-172 | Non-empty consecutive batches that make up the input, each within 2048 items and 300000 bytes unless it is one oversize text, and no other such cutting has fewer |
| `EmbeddingBatches.GreedyStaysAhead` | bifrost/embeddings.go:156-172 | After k batches the greedy split covers at least as much as any other |
| `EmbeddingBatches.GreedyIsOptimal` | bifrost/embeddings.go:156-172 | So no other split needs fewer batches |
| `TextSplitter.SplitPlaintextOnSentences` | chunking/text_splitting.go:15-35 | The loop ends and computes the chunks |
| `TextSplitter.CutPrefersSentences` | chunking/text_splitting.go:20-30 | A chunk ends with the last sentence end in the last quarter of its window before the final byte, and is cut at full size exactly when there is none |
| `TextSplitter.ChunksFit` | chunking/text_splitting.go:15-35 | No chunk is longer than the chunk size |
| `TextSplitter.ChunksKeepTheText` | chunking/text_splitting.go:15-35 | The chunks are the text with nothing removed but white space between them and at the ends |
| `TextSplitter.ChunksAreTrimmed` | chunking/text_splitting.go:15-35 | No chunk has white space at its ends, unless the text is a single chunk |
| `TextSplitter.ChunksAreFew` | chunking/text_splitting.go:15-35 | Every chunk but the last uses up more than three quarters of the chunk size |
| `TextSplitter.ChunkCountBound` | chunking/text_splitting.go:15-35 | The number of chunks minus one is at most len(text) / (floor(3 * size / 4) + 1) |
| `AmbientLimiter.WindowBoundInAnyOrder` | conversations/ambient_limiter.go:61-88 | In whatever order the times come, any run of calls has at most 6 + T / 5s grants of a channel, T being the sum of the steps that its times make forward, across prunes |
| `AmbientLimiter.WindowBound` | conversations/ambient_limiter.go:61-88 | With times in order a channel gets at most 6 + T / 5s grants in any window lasting T |
| `AmbientLimiter.GrantedExactly` | conversations/ambient_limiter.go:61-78 | With times in order a call that can be tracked is granted if and only if no window ending with it would then have more than 6 + T / 5s grants |
| `AmbientLimiter.UntrackedExactly` | conversations/ambient_limiter.go:61-88 | A call is not tracked exactly when its channel is new and 1024 channels are in use; only those stay tracked then |
| `AmbientLimiter.WindowIsPaidFor` | conversations/ambient_limiter.go:61-88 | Credit at the start of a window, and the time its calls move forward, pay for its grants and what is left at the end |
| `AmbientLimiter.DisorderBreaksTheBound` | conversations/ambient_limiter.go:66-78 | Times out of order break the bound: the clock is read before the lock is taken, and a channel can get eight grants within five seconds |
| `AmbientLimiter.PruningChangesNoDecision` | conversations/ambient_limiter.go:61-88 | As long as no call has returned to a channel with a time before the one at which it was dropped, every call that the channel cap does not refuse is decided as by a limiter that never prunes |
| `AmbientLimiter.OrderedCallsReturnInTime` | conversations/ambient_limiter.go:61-88 | Calls whose times are in order meet that condition |
| `AmbientLimiter.DroppedIsDecidedAlikeExactly` | conversations/ambient_limiter.go:80-88 | Otherwise a drop can show: after any run in which a channel was dropped and while there is room for it, six calls on it at one time are all decided as without pruning if and only if its bucket would be full at that time |
| `AmbientLimiter.DroppingIsInvisibleExactly` | conversations/ambient_limiter.go:80-88 | A fresh limiter decides like the dropped one for all times from a given one on, if and only if the dropped one is full by then |
| `AmbientLimiter.NanosecondTellsADroppedBucket` | conversations/ambient_limiter.go:61-88 | The input: a bucket dropped as soon as it is full, and six calls whose time was read one nanosecond before, all granted by the fresh bucket and not all by the old one |
| `AmbientLimiter.SlotsMatchCalls` | conversations/ambient_limiter.go:45-59 | In every interleaving the occupied slots are the calls running or being checked, never more than 8, and the rate checks are those of a sequential limiter |
| `AmbientLimiter.ReservedExactly` | conversations/ambient_limiter.go:45-59 | A slot is taken exactly if fewer than eight calls hold one |
| `AmbientLimiter.GuardSuffices` | conversations/ambient_limiter.go:45-59 | In reachable states there always is a slot to give back: the side condition of the model never holds a step back |
| `AmbientLimiter.RunKeepsInvariant` | conversations/ambient_limiter.go:45-59 | The invariant behind it over every interleaving |
| `AmbientLimiter.AmbientLimiter.TryAcquire` | conversations/ambient_limiter.go:45-59 | Takes a slot exactly when one is free and the channel has a token |
| `AmbientLimiter.AmbientLimiter.AllowChannel` | conversations/ambient_limiter.go:61-78 | Decides by the channel's bucket after making room |
| `AmbientLimiter.AmbientLimiter.PruneIdle` | conversations/ambient_limiter.go:80-88 | Forgets exactly the full buckets |
| `BotRegistry.BotConfigsEqual` | bots/bots.go:334-359 | The map comparison of two lineups |
| `BotRegistry.ServiceConfigsEqual` | bots/bots.go:361-378 | Equality of two service maps |
| `BotRegistry.EqualMeansSameConfigs` | bots/bots.go:334-359 | With unique IDs among the new configurations the comparison holds exactly when both lineups hold the same configurations in any order |
| `BotRegistry.RepeatedIdsHideAChange` | bots/bots.go:334-359 | With a repeated ID it overlooks a configuration that is gone |
| `BotRegistry.MMBots.Rebuild` | bots/bots.go:477-566 | Unless two configurations to be served have one name or a model cannot be built, exactly the configurations with a valid service and an account are served, in the order of the lineup and from the version read; a refresh is forced exactly if an account could not be brought in line, and otherwise the lineup is remembered if it could be copied |
| `BotRegistry.FailsExactly` | bots/bots.go:477-545 | When a rebuild gives up |
| `BotRegistry.MMBots.ReplaceAgentBot` | bots/bots.go:729-751 | The loop swaps in one agent's entry |
| `BotRegistry.SwapReplacesOne` | bots/bots.go:729-751 | After it the agent has exactly the new entry and all others are as before, in order |
| `BotRegistry.SwapKeepsPlaces` | bots/bots.go:729-751 | The entries of the other agents stay in order |
| `BotRegistry.SwapKeepsFirstPlace` | bots/bots.go:729-751 | The new entry takes the place of the agent's first one, or comes last |
| `BotRegistry.MMBots.SnapshotUnchanged` | bots/bots.go:417-438 | Whether the rebuild may be skipped |
| `BotRegistry.MMBots.ForceRefreshOnNextEnsure` | bots/bots.go:323-332 | Forgets the remembered lineup and sets the force; the next four rows say what that achieves |
| `BotRegistry.ForcedRefreshHolds` | bots/bots.go:323-332 | If no call that can succeed has read its lineup under the lock when a refresh is forced, no check of EnsureBots skips, at any point of any interleaving, until a lineup that was read after the force has been rebuilt, as the comment promises |
| `BotRegistry.ForcedRefreshIsLost` | bots/bots.go:440-566 | If one has, whether it still has to compare the lineup or is already building, it can go on, clear the force and remember the lineup it had read before, so that a check of that lineup skips |
| `BotRegistry.ForcedRefreshIsLostExactly` | bots/bots.go:417-566 | A check can skip after a force with no lineup read after it rebuilt, if and only if a call that can succeed had read its lineup under the lock when it was forced |
| `BotRegistry.LateForceIsLost` | bots/bots.go:417-566 | The input: a first call reads a lineup under the lock, and the refresh is forced before or after it compares |
| `BotRegistry.RunKeepsInvariant` | bots/bots.go:417-566 | Over every interleaving of EnsureBots, RefreshAgent and ForceRefreshOnNextEnsure, nothing in the registry is newer than what the lock holder has read, and unless a refresh is forced the registry serves exactly what could be served of the remembered lineup |
| `BotRegistry.NoStaleEntry` | bots/bots.go:440-751 | An agent's entry is never replaced by one built from an older store version, even when it was removed in between, and also when the registry holds several entries with its ID |
| `BotRegistry.SkipIsSafe` | bots/bots.go:417-475 | EnsureBots skips only when the configurations just read are, by ID, those the registry was rebuilt from and still serves, given unique IDs and a rebuild that could copy its lineup |
| `BotRegistry.SkipIsWrongExactly` | bots/bots.go:417-566 | A skip is wrong, given unique IDs, exactly when the last rebuild could not copy its lineup and the remembered lineup or services are not those it was made from |
| `BotRegistry.FailedCopyHidesTheRebuild` | bots/bots.go:541-566 | The exception: when the copy fails the new registry is in place and the old lineup is remembered, so reading the old lineup again skips |
| `BotRegistry.MatchPreviousMMBots` | bots/bots.go:173-208 | A bot whose account exists keeps it whatever its name; others only get an account with their name; an account is shared only by bots that both say it is theirs; a bot goes without only when the account with its name is taken |
| `LegacyMigrations.MigrateServicesToBots` | config/legacy_migrations.go:37-106 | Converts exactly if there are no bots, no service has an ID or type, and an old service has a type or URL: one service and one bot per old service |
| `LegacyMigrations.ConvertedBotsResolve` | config/legacy_migrations.go:75-103 | Every old service gets a bot that resolves to it with its settings, field by field, and bot names differ |
| `LegacyMigrations.FindIdenticalService` | config/legacy_migrations.go:221-229 | Any service that is identical; a blank ID counts as none |
| `LegacyMigrations.MigrateSeparateServicesFromBots` | config/legacy_migrations.go:108-184 | Reports a change exactly when a bot embeds a service; keeps every existing service and every reference; every embedded service is identical to the one its bot then resolves to; every new service is that of the first bot with such a service, and no other is identical to it; afterwards no bot embeds a service |
| `LegacyMigrations.ReferencesKeepTheirService` | config/legacy_migrations.go:133-183 | With unique IDs every service ID that could be looked up still leads to the same service |
| `LegacyMigrations.RunAllLegacyMigrations` | config/legacy_migrations.go:186-213 | Both in order; a run on the result reports no change |
| `LegacyMigrations.MigratedBotKeepsItsSettings` | config/legacy_migrations.go:108-247 | If no stored or embedded service agrees with a bot's embedded one in the compared fields and differs elsewhere, the bot ends up with its own settings, up to ID and name |
| `LegacyMigrations.MigratedBotKeepsItsSettingsExactly` | config/legacy_migrations.go:108-247 | With distinct IDs that are not blank, a bot keeps its settings, whichever identical service is found, if and only if every service it may take over has them: any identical stored service, or else that of the first bot that embeds an identical one |
| `LegacyMigrations.StoredServiceIsTakenOver` | config/legacy_migrations.go:221-247 | If a stored service agrees in the compared fields, the bot ends up with such a stored service |
| `LegacyMigrations.RegionIsTakenOver` | config/legacy_migrations.go:231-247 | The comparison, documented as covering all fields, leaves some out: a bot whose embedded service differs from a stored one in its region is moved to that region |
| `Licenses.LevelsAreOrdered` | enterprise/license.go:16-136 | A higher level allows what a lower one allows and its caps are no lower |
| `Licenses.WhatEachLevelAllows` | enterprise/license.go:16-136 | The capabilities and caps of each level |
| `LicenseGates.ValidateLicenseTransition` | config/license_gates.go:141-212 | The check of a save, gate by gate in order |
| `LicenseGates.ToolPoliciesNewlyAuto` | config/license_gates.go:95-113 | Whether a tool runs more widely by itself than stored, or than its default if not stored |
| `LicenseGates.ByKey` | config/license_gates.go:124-133 | The last item for each non-blank key |
| `LicenseGates.AcceptedMeans` | config/license_gates.go:141-212 | A save is accepted exactly when no count grows beyond its cap and every item passes its own gates |
| `LicenseGates.AcceptedExactly` | config/license_gates.go:55-237 | In terms of the configurations: a save is accepted if and only if no capped count grows beyond its cap and every capability that a setting, service, agent, server or plugin server newly uses is allowed; a denial names a capability that is newly used and not allowed, or the growing count |
| `LicenseGates.LastByKeyIsTheLast` | config/license_gates.go:124-133 | What is stored under a key is the last item with it |
| `LicenseGates.AcceptanceIsMonotone` | config/license_gates.go:141-237 | What a level accepts every higher level accepts |
| `LicenseGates.SaveKeepsAbsent` | config/license_gates.go:141-212 | An accepted save brings in no capability that the level does not allow and that was used nowhere |
| `LicenseGates.AbsentStaysAbsent` | config/license_gates.go:141-212 | So over any number of saves at a fixed level |
| `LicenseGates.CapsHold` | config/license_gates.go:155-160 | Over any number of saves a count above its cap never grows |
| `LicenseGates.CuttingBackIsAccepted` | config/license_gates.go:141-237 | With unique IDs and tool names, turning off, clearing and removing is accepted at every level |
| `LicenseGates.UnchangedIsAccepted` | config/license_gates.go:141-237 | So is saving a configuration unchanged |
| `LicenseGates.UnmovedServersStayWithin` | config/license_gates.go:190-200 | Remote servers that keep their URL do not gain policies beyond their defaults |
| `LicenseGates.MovingIsNotGated` | config/license_gates.go:95-200 | Whatever is saved, changing the URL of a server whose tools are all stored makes no difference to acceptance at any level, whatever the defaults at the new URL are |
| `LicenseGates.OnlyStoredToolsGoBeyond` | config/license_gates.go:95-200 | Conversely, where tool policies are not licensed, a remote tool that goes beyond its default after an accepted save was stored before |
| `LicenseGates.MovedServerKeepsItsPolicy` | config/license_gates.go:190-200 | So a server within its defaults that moves to a URL with stricter ones is accepted with policies beyond them, at any level |
| `LicenseGates.StoredPluginsAreNotTurnedOn` | config/license_gates.go:202-209 | Where remote servers are not licensed, every plugin server that is on after an accepted save was on before or was not stored |
| `LicenseGates.OneMorePluginServer` | config/license_gates.go:202-209 | A save with one more plugin server is accepted exactly when it is without it and the server is allowed: turning it on needs a license if and only if it is stored and turned off |
| `LicenseGates.NewPluginServersAreNotGated` | config/license_gates.go:202-209 | So adding any plugin servers that are not stored, turned on or not, to any save makes no difference at any level, given no policy of theirs beyond its default |
| `LicenseGates.ServerWithoutIdIsRefused` | config/license_gates.go:190-200 | A remote server without an ID is refused even unchanged |
| `AgentSelection.AgentPool` | config/agent_selection.go:26-48 | Configured bots, then the stored agents sorted |
| `AgentSelection.SortedIsInOrder` | config/agent_selection.go:32-41 | The sorted agents are all of them, by creation time and then ID |
| `AgentSelection.SortedIsStable` | config/agent_selection.go:32-41 | Agents that tie keep their order |
| `AgentSelection.StatusMeans` | config/agent_selection.go:50-82 | Which agents may take a slot and why others may not, in terms of the agent and the services |
| `AgentSelection.ActiveServiceIDs` | config/license_gates.go:19-44 | The IDs of the services active at a level |
| `AgentSelection.AgentInactiveReasons` | config/agent_selection.go:50-82 | An agent is active exactly when it is eligible and fewer eligible agents than the limit come before it; the others get the right reason |
| `AgentSelection.AddingLastChangesNoOther` | config/agent_selection.go:26-82 | A new agent that sorts last changes nothing for the others |
| `AgentSelection.RemovedFromSorted` | config/agent_selection.go:32-41 | Removing an agent removes just it from the sorted ones |
| `AgentSelection.DeletingDeactivatesNoOther` | config/agent_selection.go:26-82 | Deleting any stored agent deactivates no other |
| `AgentSelection.LicensedAgentPoolCount` | api/api_agents.go:248-260 | Counts the agents that take or await a slot |
| `AgentSelection.CheckAgentCreateQuota` | api/api_agents.go:262-285 | Passes exactly when agents are uncapped or fewer eligible ones than the limit exist |
| `AgentSelection.CreatedAgentIsActive` | api/api_agents.go:262-285 | After it has passed the created agent is active if eligible, wherever it sorts, and so is every other eligible one |
| `AgentSelection.WaitsExactlyOverTheLimit` | config/agent_selection.go:50-82 | Some eligible agent of a pool waits for a slot exactly when more are eligible than the limit |
| `AgentSelection.CheckedTogetherExceedExactly` | api/api_agents.go:262-285 | Agents created after checks that all saw the same stored agents leave one waiting, if and only if those eligible exceed what was left of the limit |
| `AgentSelection.TwoCheckedTogetherExceed` | api/api_agents.go:262-285 | The input: two eligible agents when one was left |
| `FallbackChains.AllowedFallbackServiceIDs` | bots/fallback_access.go:21-38 | The IDs of the longest prefix of hops that may be used, or the resolve error |
| `FallbackChains.Restrict` | bots/fallback_access.go:68-84 | What a request is stamped with |
| `FallbackChains.RequestFallbacks` | bifrost/bifrost.go:690-704 | The hops up to the first one that is not allowed |
| `FallbackChains.AttachedUntilRefused` | bifrost/bifrost.go:690-704 | Hops are attached up to the first one that is not allowed, and no further |
| `FallbackChains.OnlyUsersAreRestricted` | bots/fallback_access.go:68-84 | A request without a user, or restricted already, is left as it is |
| `FallbackChains.AttachedAreTheAllowed` | bots/fallback_access.go:21-84 | With the chain the client was built with, exactly the longest prefix usable at every hop is attached |
| `FallbackChains.NoRefusedHopIsAttached` | bots/fallback_access.go:21-84 | With any other chain no hop is attached that the user may not use or that has left the chain |
| `FallbackChains.UnresolvedChainFailsClosed` | bots/fallback_access.go:68-84 | After a resolve error nothing is attached exactly when the request did not already carry the first hop's ID |
| `FallbackChains.ReachableFallbackModels` | bots/fallback_access.go:101-130 | The models of the reachable hops |
| `FallbackChains.NamesAreTheModels` | bots/fallback_access.go:116-130 | Exactly the non-blank models other than the primary's are named |
| `FallbackChains.NamesAreDistinct` | bots/fallback_access.go:116-130 | Each once |
| `FallbackChains.NamesComeInOrder` | bots/fallback_access.go:116-130 | In the order of the hops |
| `FallbackChains.PromptMatchesTheHops` | bots/fallback_access.go:101-130 | The prompt is about the hops that are attached |
| `FallbackChains.MultiProviderAccount.AddProvider` | bifrost/account.go:193-200 | The first account under a name wins |
| `FallbackChains.CustomNamesAreUnique` | bifrost/account.go:185-189 | Custom names tell services apart when provider names have no colon |
| `FallbackChains.New` | bifrost/bifrost.go:203-262 | On success every hop's name leads to its own settings, and none is dropped or reordered; with distinct IDs and provider names without a colon it fails exactly when a fallback needs a second or special instance of a provider that cannot host one |
| `RenameSaga.UpdateAgent` | api/api_agents.go:783-910 | For every combination of failing calls and every name the account had before: when it fails, the account has the stored name or a refresh was run, exactly unless a call took effect and reported an error in one of two places, or the account did not have the stored name and it failed before its own update; a completed revert restores both names; when it succeeds after leaving attribute-based access no policy remains |
| `RenameSaga.RenameAgentBot` | api/api_agents.go:366-388 | Renames unless the account has the name already |
| `RenameSaga.StoreAgent` | api/api_agents.go:860-896 | Update, policy deletion, rollback and revert |
| `AmbientClassifier.NewestPostsIncluding` | conversations/ambient_classifier.go:169-180 | The newest posts, the trigger always among them |
| `AmbientClassifier.FormatAmbientThread` | conversations/ambient_classifier.go:182-208 | The loop spends the budget on the trigger and then newest first |
| `AmbientClassifier.TrimRunesKeepNewest` | conversations/ambient_classifier.go:210-217 | The last characters of a text |
| `AmbientClassifier.OthersKeepTheirNewest` | conversations/ambient_classifier.go:182-208 | The other posts taken together are their newest characters within what the trigger leaves |
| `AmbientClassifier.OneIsKeptInPart` | conversations/ambient_classifier.go:182-208 | Post by post: some post is kept in part, all newer ones but the trigger are whole, and all older ones but the trigger are empty |
| `AmbientClassifier.TriggerIsKept` | conversations/ambient_classifier.go:198-201 | The trigger keeps its newest characters even when it is not the newest post |
| `AmbientClassifier.ThreadFits` | conversations/ambient_classifier.go:182-208 | The text has exactly the budget's length, or the whole length if that fits |
| `AmbientClassifier.NewestTriggerKeepsTheTail` | conversations/ambient_classifier.go:182-208 | When the trigger is the newest post, or missing, the text is the newest part of the whole thread |
| `ThreadPosts.FindPreviousThreadPost` | conversations/agent_mention_reminder.go:104-156 | The loop returns what some order of reading the map picks, a stored post no later than the given one, none exactly when there is no candidate, and the latest candidate whenever one is later than all others |
| `ThreadPosts.CandidatesAreTheEarlier` | conversations/agent_mention_reminder.go:133-149 | Which stored posts may be the previous one, by time, the thread's order and ID |
| `ThreadPosts.LaterMeans` | conversations/agent_mention_reminder.go:117-131 | When a post is later than another |
| `ThreadPosts.LatestIsUnique` | conversations/agent_mention_reminder.go:117-131 | At most one candidate is later than all others |
| `ThreadPosts.ReadingDoesNotMatterExactly` | conversations/agent_mention_reminder.go:117-131 | Every order of reading the map picks the same candidate if and only if that one is later than all others |
| `ThreadPosts.CandidatesAreDistinct` | conversations/agent_mention_reminder.go:132-156 | The candidates of a thread have different IDs, which is all that the exact condition takes |
| `ThreadPosts.OrderedNewestTiesHaveALatest` | conversations/agent_mention_reminder.go:117-131 | That is so if the candidates of the newest time are all in the thread's order or none is, whatever ties there are among older ones |
| `ThreadPosts.MixedTiesCanMatter` | conversations/agent_mention_reminder.go:117-131 | Three candidates of one time, two of them in the thread's order, none of which is later than the others |
| `ThreadPosts.MixedTiesNeedNotMatter` | conversations/agent_mention_reminder.go:117-131 | Two candidates of one time, one of them in the thread's order, of which every reading picks the same |

## Left out

- HTTP handlers, request binding, auditing, websocket messages, telemetry, logging and error texts.
- SQL, the Mattermost server, the Bifrost library, JSON, randomness and clocks: their results are
  parameters. New IDs come from a supply that is not in use, minted tool-call IDs are numbered.
- Mutexes and channels: a section under a lock is one atomic step, and the interleavings are of these
  sections. Waiting on a lock has no order.
- `AutoReplyCache`: modes a peer of another version stores are strings outside the node's set; a lost
  invalidation is recorded until the row is read again.
- `ServiceLLMRegistry`: an entry's identity is its place in the list of all entries ever built; model
  wrappers derived from a client are not modelled.
- Provider settings of a service that no modelled branch reads are one value (`other`), and whether a
  service or agent passes the checks of its type is one flag (`settingsOk`).
- Image decoding: what is found in an attached file is given. Prompt caching and provider tables.
- `StreamEvents.FlushToolCallBuffers`: sorting is a selection of the least key; the library's algorithm
  is not modelled.
- `ResponsesStream.StreamResponses`: text positions of citations are not modelled, only their order and
  numbers; whether a chunk changes the activity of the provider's own tools is given with the chunk.
- The watchdog that cancels a silent stream: a cancelled stream ends like any other.
- `AmbientLimiter.WindowBound`: needs times in order, see `WindowBoundInAnyOrder`; credit is counted
  exactly, where the library uses floating point.
- `BotRegistry.SkipIsSafe`: speaks of the services read with the lineup; the services used while
  building are read again and may be newer. Waiting for the cluster mutex and its other holders are
  not modelled, since they touch other nodes' registries only.
- `LegacyMigrations.MigrateSeparateServicesFromBots`: promises about one bot or service are given for
  unique IDs; with repeated ones the last wins and less can be said.
- `LegacyMigrations.MigratedBotKeepsItsSettingsExactly`: for stored services whose IDs are distinct and
  not blank; a blank ID that is found counts as nothing found. `MigratedBotKeepsItsSettings` has no such
  condition.
- `LicenseGates.AbsentStaysAbsent`: leaves tool policies of remote servers to `MovingIsNotGated`,
  `OnlyStoredToolsGoBeyond` and `UnmovedServersStayWithin`.
- `RenameSaga.UpdateAgent`: what a refresh does is not modelled, only that it was run; request checks
  before the first call are one flag.
- Agents, bots and services appear in several modules with the fields that the module reads.
- Attribute-based access decisions, per-user request counting, prompts, link domains and canonical
  endpoint URLs: easy members beside those above.
- TypeScript, the bridge script itself, assets and documentation.
