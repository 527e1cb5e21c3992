# Tapes: capture, derive and cassette serving, modelled and proved

Tapes records the traffic between agent harnesses and model providers. A gateway adapter
captures each call, ingest stores it, a deriver turns the captured calls into a
deduplicated conversation graph and a tree of spans, and a runner keeps a fleet of
cassettes (proxied tools with an OpenAPI document each) in step with a source catalogue.
This project models those four parts in Dafny and proves what they promise.

Values first, then the running code: each component has a model module with the state as
a datatype and each step as a function, proof modules about whole runs, and a module with
the classes, loops and in-place updates of the program, every method proved to take the
modelled step.

- **Derive.** `Chain` builds one call's hash-linked chain; `DeriverModel`, `Dedup`,
  `DerivedCalls`, `DeriveBooks`, `ToolRegistry` and `Deriver` are the streaming dedup;
  `AttachModel`, `AttachClaims`, `AttachOrder` and `Attacher` join checks, web summaries
  and plans to tool uses; `ReconcileModel`, `ForestWalk`, `ReconcileJoins`,
  `CodexSpawns`, `CodexAnchors` and `Reconciler` join transcripts and spawned threads.
  `SpanModel` is the span projection. `ThreadFixpoint`, `SpanSoundness`, `SpanWalk`,
  `Seams`, `SpanTotals`, `SpanFinish`, `SpanForest` and `SpanInputs` prove its
  invariants; `SpanPrompts`, `SpanOrigins`, `SpanPresence`, `SpanPlaces` and
  `SpanAgents` read every trace, span and link off the calls alone, `SpanQuiet` says
  what a step leaves alone, and `SpanEmitter` runs it. `WalkShape` and `Refeed` follow a
  turn that is captured twice, `SpawnOrder` two orders of one capture. `Pipeline` puts
  the pass together.
- **Capture.** `AnthropicModel`, `AnthropicStream`, `AnthropicSlots`, `AnthropicEnds`,
  `AnthropicReducer`: the stream reducer against the one-shot one, what any stream
  leaves in a block, and how streams end. `ContentEncoding`: undoing a Content-Encoding
  header.
- **Gateway and ingest.** `ProcessorModel`, `CapturedTurns` and `Processor`: one stream
  from first header to terminal outcome. `RawLane`, `Ingest`: what is posted and what is
  stored. `Dispatcher`: concurrent dispatches over two semaphores, as interleaved atomic
  steps.
- **Cassettes.** `Urls`, `UrlTexts`, `CassetteModel`, `CassetteFreshness`,
  `CassetteRuns`, `CassetteRunner`: catalogue, registry and document cache; an operation
  is a list of the atomic, lock-protected updates it makes, so that "at every instant"
  is a statement about the prefixes of that list.

## Choices

- The content hash is an inductive datatype over a digest (role and projected content) and
  the parent's hash, hence injective. The projection is a parameter. Model, provider and
  agent are no part of the digest, as `pkg/merkle/node.go:163-166` says and its code does,
  although the type comment at `pkg/merkle/bucket.go:10-12` calls the whole bucket the
  hashed structure.
- Ids are tagged datatypes and composite keys are records, not joined strings. Times and
  durations are integers.
- The text heuristics (injected-context classification, the tool matcher, task names), JSON
  decoding, the codecs' readers, the provider reducers other than Anthropic's, fetch
  outcomes, statuses and clocks are parameters: the theorems hold for every choice of them.
- The URL parser is net/url's, userinfo, ports, zones and escapes included, at the Go release
  `go.mod` names. What releases disagree on is a parameter: the texts taken for an IP
  literal between brackets, and whether a second colon in a bare host is refused.
- The emitter's soundness asks of its calls only what the deriver is proved to give it;
  `Pipeline.DerivedSpansAreSound` discharges it from distinct raw rows and request ids.

## Where the code does not do what one would expect

- `sourceOrigin` (`api/cassetterunner/fetch.go:139-151`) does not imply `validateURL`
  (`api/cassetterunner/registry.go:215-234`). The host is decoded once when the source URL is
  parsed and once more when its origin is, and the second decoding can fail: after an escaped
  percent sign in the host, or an escape inside the zone of a bracketed address.
  `Urls.OriginUsableIff` says exactly when. It matters at
  `api/cassetterunner/runner.go:310-314`: publishing replaces the document another source
  had registered under the name, the registry then refuses the origin, and the roll-back
  evicts the name, leaving the other source's registered cassette without a document.
  `CassetteModel.DocumentedIff` says exactly which refreshes do this and
  `CassetteRuns.CatalogueSafeIff` exactly which catalogues allow it: those in which a source
  the registry refuses stands before one it serves. `CassetteRuns.RollbackCanStrand` shows
  a concrete pair.
- The agent-path join reads each node where it was captured first. When two sessions carry
  the node that reports a spawn, capture order decides whose thread is anchored
  (`SpawnOrder.FirstCaptureDecides`); when the copies of a node report alike, order decides
  nothing (`SpawnOrder.AnchorIgnoresCaptureOrder`).
- The raw lane would post an envelope with neither half for a raw-only turn whose body is
  empty; such turns are dropped before it. `RawLane.NeverBothAbsent` states both sides.

## Model

| member | source | states |
|---|---|---|
| ThreadFixpoint.EveryThreadCallOnce | pkg/derive/spans.go:338-365 | the thread phase terminates and runs every pending call exactly once: it equals the per-call step folded over a permutation of the pending list |
| ThreadFixpoint.PlacedIsLeastFixpoint | pkg/derive/spans.go:338-365 | the calls placed before the degrade pass are the least set closed under "my thread already has an agent span, or the spine or a placed call emitted my anchor tool" |
| ThreadFixpoint.PlacedIgnoresOrder | pkg/derive/spans.go:338-365 | which calls are placed does not depend on the order of the pending list |
| ThreadFixpoint.PassPartitions | pkg/derive/spans.go:343-356 | one pass splits the pending list into what it ran and what it left, as multisets |
| ThreadFixpoint.FixpointRuns | pkg/derive/spans.go:341-360 | the loop of passes is the per-call step over the placed calls; placed and left over partition the pending list |
| ThreadFixpoint.StuckPass | pkg/derive/spans.go:342-360 | a pass that makes no progress means that no remaining call was ready |
| SpanWalk.WalkSound | pkg/derive/spans.go:277-326 | for calls with distinct identities and each hash new once, the state after spine, threads and shadows satisfies the whole invariant: trees, names, links, feeds, counters |
| SpanWalk.TracesAreTrees | pkg/derive/spans.go:474-806 | every trace has one root at index 0, an agent span; every other span has a parent created earlier in the same trace; span ids are distinct within a trace |
| SpanWalk.LinksHaveEnds | pkg/derive/spans.go:808-815 | trace ids are distinct; links stored on a turn have both ends in it; links stored on the set cross traces and both ends exist |
| SpanWalk.ToolsFeedOnce | pkg/derive/spans.go:512-571 | one tool span per (session, tool_use id); exactly one feeds link leaves it if and only if it has output |
| SpanWalk.SyntheticIsCounted | pkg/derive/spans.go:677-727 | the synthetic counter equals the number of synthetic traces |
| SpanWalk.EnsureTraceLeavesSeam | pkg/derive/spans.go:719-727 | a synthesized trace never meets an armed seam, since an armed seam presupposes a trace of its session |
| SpanWalk.SeamClosesOnOpener | pkg/derive/spans.go:677-714 | a trace opened under an armed seam is marked, spends the seam, and the seam link runs to the llm span this same call emits |
| SpanWalk.ScanResultsSound | pkg/derive/spans.go:512-545 | folding tool results keeps the invariant, each first result adding exactly one owed feeds link |
| SpanWalk.EmitToolSound | pkg/derive/spans.go:546-571 | the first emitter of an id opens its tool span, later ones only add an emits link; the invariant is kept |
| SpanWalk.MainCallSound | pkg/derive/spans.go:370-383 | a main call keeps the whole invariant |
| SpanWalk.ThreadCallSound | pkg/derive/spans.go:388-427 | a thread call keeps the whole invariant wherever its anchor lies |
| SpanWalk.CompactionCallSound | pkg/derive/spans.go:432-437 | a compaction call keeps the whole invariant |
| SpanWalk.ShadowCallSound | pkg/derive/spans.go:443-469 | a shadow call keeps the whole invariant, attached or orphaned |
| SpanSoundness.FillSound | pkg/derive/spans.go:655-675 | a tool result is written at most once, and writing it creates exactly one owed feeds link |
| SpanSoundness.AddLinkSound | pkg/derive/spans.go:808-815 | a link with known ends keeps the invariant whether it stays on the host trace or goes to the set |
| Seams.SeamFollowsCalls | pkg/derive/spans.go:370-437 | a session has a seam armed exactly when it compacted and no prompt opened a trace since, and the seam is the latest compaction's span: a second compaction replaces an unclosed first |
| Seams.OnlyTheSpineMovesSeams | pkg/derive/spans.go:338-469 | thread and shadow calls neither arm nor close a seam |
| SpanPrompts.EveryPromptOpensItsTrace | pkg/derive/spans.go:370-383 | the traces that have a prompt are, in order, one for each main call of the spine whose request has a fresh genuine user prompt, with that prompt, the call's identity, session and time |
| SpanPrompts.OnlyPromptsOpenLaterTraces | pkg/derive/spans.go:370-383 | a trace without a prompt is its session's first: every later one was opened by a human prompt |
| SpanPrompts.PromptMeans | pkg/derive/spans.go:1110-1132 | a call's prompt is h exactly when h is the hash of the last request position that is new, a user's, not injected, without a tool result and with no new assistant position after it |
| SpanPrompts.InputMeans | pkg/derive/spans.go:1146-1165 | the input a call shows lists, in request order and each once, exactly the blocks other than tool results of its fresh user positions |
| SpanOrigins.WalkIsTold | pkg/derive/spans.go:474-815 | every span and link of the walk is accounted for by the calls, field by field: whose it is, where it hangs, what it shows, when it starts and how long it takes, and what each kind of link runs between |
| SpanOrigins.AnchorMeans | pkg/derive/spans.go:1211-1221 | a call is anchored to its own anchor, else to the stamp of the first stamped root of its chain, else to nothing |
| SpanOrigins.FinishedWindow | pkg/derive/spans.go:817-850 | a finished trace starts with its root, ends with the last of its spans or where it started, and its root lasts that long |
| SpanPresence.NothingIsLeftOut | pkg/derive/spans.go:474-572 | every injected or system position past the resume boundary, every emission, every thread and every verdict with a known tool shows in the walk; the orphan counter is the number of shadow calls anchored to no known tool |
| SpanPresence.DeliveredResultsArrive | pkg/derive/spans.go:655-675 | a tool result delivered after its tool call, by the spine or by a thread, is on the tool's span |
| SpanPlaces.WalkIsSettled | pkg/derive/spans.go:677-745 | every trace has the identity, session, time, prompt and mark of the call that opened it; timelines list a session's traces in order; agents hang in the last trace or have the edge to their tool; shadow calls stand beside their tool or in the trace live at their time |
| SpanPlaces.SpineCallsLand | pkg/derive/spans.go:370-437 | a main or compaction call of the spine lands in the last trace its session had opened when the spine reached it |
| SpanPlaces.TraceAtIsLive | pkg/derive/spans.go:732-745 | the timeline scan finds the trace before the first later-opened one that starts after the call |
| SpanAgents.AgentsSpanTheirThreads | pkg/derive/spans.go:388-427 | each thread has one agent span, from the first call of the thread the walk runs to the last one that came later than it |
| SpanQuiet.ConversationQuietly | pkg/derive/spans.go:474-572 | a conversation opens, files, marks and counts nothing, moves no seam, and changes no span but tool spans |
| SpanTotals.SpendConserved | pkg/derive/spans.go:747-776 | per session, every total over the llm spans (tokens, cache, main-kind, per model) equals the sum over the calls of their retained response usage, whatever the phases reorder |
| SpanTotals.OneLlmSpanPerCall | pkg/derive/spans.go:277-326 | a call with a non-empty chain and its own identity yields exactly one llm span |
| SpanTotals.WalkTools | pkg/derive/spans.go:546-571 | a tool_use id is registered exactly when a main or thread call of its session emitted it |
| SpanTotals.ToolCallsAreDistinctIds | pkg/derive/spans.go:546-571 | the number of tool spans of a session is the number of distinct tool_use ids its main and thread calls emitted |
| SpanFinish.SortIsStable | pkg/derive/spans.go:817-850 | the span sort is by start time, stable, and a permutation |
| SpanFinish.FinishTurnMeans | pkg/derive/spans.go:817-932 | a finished trace keeps its root first and its spans as a set, the rest in time order; it ends with the last of them, its rollup is the sum over its spans, and nothing else of it changes |
| SpanFinish.ModelSpendConserved | pkg/derive/spans.go:955-979 | the per-model fold of a session equals the sum over its calls naming that model |
| SpanFinish.ReportedIsTotal | pkg/derive/spans.go:817-932 | the finished rollups of a session add up to the session totals |
| SpanEmitter.LastFreshAssistant | pkg/derive/spans.go:1079-1087 | the resume boundary: the last assistant position this call captured first, the response leaf aside, or -1 |
| SpanEmitter.FreshGenuinePrompt | pkg/derive/spans.go:1110-1132 | the hash of the last request position that is new, a user's, not injected, without a tool result, and with no new assistant position after it; none when there is no such position |
| SpanEmitter.CollectFreshInput | pkg/derive/spans.go:1146-1165 | in order and each once, the blocks other than tool results of the fresh user positions |
| SpanEmitter.ResolveAnchor | pkg/derive/spans.go:1211-1221 | the per-call anchor, else the stamp of the chain root |
| SpanEmitter.Emitter.AddSpan | pkg/derive/spans.go:796-806 | appends the span and stretches the trace; nothing else changes |
| SpanEmitter.Emitter.AddLink | pkg/derive/spans.go:808-815 | files the link on the host trace or on the set by its trace ids |
| SpanEmitter.Emitter.FillToolResult | pkg/derive/spans.go:655-675 | first result wins; a second one changes nothing and feeds nothing |
| SpanEmitter.Emitter.OpenTrace | pkg/derive/spans.go:677-714 | opens, files and makes current a trace, closing an armed seam on it |
| SpanEmitter.Emitter.EnsureTrace | pkg/derive/spans.go:719-727 | a synthetic trace exactly when the session has none |
| SpanEmitter.Emitter.TraceAt | pkg/derive/spans.go:732-745 | the latest trace of the session started no later than the call, by the timeline's own order; a session without one gets a synthesized trace, and that one |
| SpanEmitter.Emitter.EmitConversation | pkg/derive/spans.go:474-572 | event spans, results, the llm span, its feeds links, then the tools, as the specification function says |
| SpanEmitter.Emitter.MainCall | pkg/derive/spans.go:370-383 | the new state is the specification function of the old one |
| SpanEmitter.Emitter.ThreadCall | pkg/derive/spans.go:388-427 | the new state is the specification function of the old one |
| SpanEmitter.Emitter.CompactionCall | pkg/derive/spans.go:432-437 | the new state is the specification function of the old one |
| SpanEmitter.Emitter.ShadowCall | pkg/derive/spans.go:443-469 | the new state is the specification function of the old one |
| SpanEmitter.Emitter.ThreadCalls | pkg/derive/spans.go:338-365 | the loop of passes over the shrinking pending list is the phase the fixed-point lemmas speak of |
| SpanEmitter.Emitter.Walk | pkg/derive/spans.go:277-326 | spine, threads, shadows: the new state is the walk the soundness theorems speak of |
| SpanEmitter.Emitter.Finish | pkg/derive/spans.go:817-932 | every trace finished and rolled up, per-model use folded over all of them |
| SpanEmitter.EmitSpans | pkg/derive/spans.go:277-326 | the emitter of all calls, finished; for separate calls its traces and links are a forest |
| SpanForest.FinishedWalkIsForest | pkg/derive/spans.go:817-932 | after finish has sorted: root at index 0, every other span under a parent of the same trace and no cycles, distinct span ids, distinct trace ids, every kept link inside its trace, every crossing link with both ends |
| SpanForest.FinishedForest | pkg/derive/spans.go:817-850 | finishing the traces of a forest gives a forest |
| SpanInputs.SpanHasOwner | pkg/derive/spans.go:747-776 | every llm span carries the identity and session of one call and stores that call's fresh input, empty for a spine compaction |
| SpanInputs.InputShownOnce | pkg/derive/spans.go:1146-1165 | two llm spans of the walk stand for different calls, and the inputs they store are the blocks of repeat-free, disjoint lists of nodes |
| Pipeline.DerivedInputsAreApart | pkg/derive/spans.go:1146-1165 | the same from captured calls with distinct rows, after attach and reconcile |
| WalkShape.WalksAlike | pkg/derive/spans.go:338-469 | which traces a walk opens depends, beyond the calls, only on which sessions, tools and threads are known after the spine |
| WalkShape.StepsAlike | pkg/derive/spans.go:370-469 | each of the four call steps keeps two emitters alike that agree on sessions, tools, threads and traces |
| Refeed.RefeedLeavesTraces | pkg/derive/deriver.go:417-521 | a captured main turn repeated anywhere later: same nodes and counters, one call more with nothing new and an empty fresh input, and the same traces with the same ids, sessions, prompts and starts after spine, threads and shadows |
| Refeed.StaleCallOpensNothing | pkg/derive/spans.go:277-326 | on the calls alone: a stale copy of a main call opens no trace and changes no later decision to open one, in any phase |
| Pipeline.DerivedSpansAreSound | pkg/derive/spans.go:277-326 | for every sequence of captured calls with distinct raw rows and request ids, after dedup, attach and reconcile, the span walk is sound and what finish hands out is a forest |
| Pipeline.ReportedTotalsAreTheCalls | pkg/derive/spans.go:817-903 | a session's finished totals are the sums over its calls, its tool count the number of distinct emitted ids |
| Chain.TurnChain | pkg/derive/chain.go:68-150 | one node per message hanging off the last non-injected message before it, then the response; empty for a missing request or response |
| Chain.SpineHashIsPath | pkg/derive/chain.go:76-112 | the k-th spine node is the hash of the first k+1 non-injected messages, wherever they stood |
| Chain.ChainCarriesTheTurn | pkg/derive/chain.go:68-150 | every node carries its message's role and content, the model, thread and captured time; only the reply has usage and a stop reason; the classifier decides kinds first, then the per-message labels, then the call |
| Chain.InjectedDriftIsInert | pkg/derive/chain.go:93-105 | inserting, deleting or editing injected context anywhere changes no spine hash and not the response's |
| Chain.PathHashIsExact | pkg/merkle/node.go:137-206 | a hash names one conversation: equal exactly when the digests agree one by one from the root |
| Chain.SpineSharedExactly | pkg/derive/chain.go:68-150 | two calls share a spine node exactly when it is at the same depth and all spine messages up to it agree in role and projected content |
| Chain.ReplyIsRecognised | pkg/derive/chain.go:125-149 | an answer recorded as the leaf of one call and re-sent as history in the next is one node |
| Dedup.RetainsFirstOccurrences | pkg/derive/deriver.go:475-496 | retained nodes are the distinct hashes in first-occurrence order, each as first captured |
| Dedup.NewExactlyOnce | pkg/derive/deriver.go:482-496 | every retained node is marked new at exactly one position of exactly one call |
| Dedup.FlagMeans | pkg/derive/deriver.go:482-496 | a position is new exactly when nothing before it, in any call, brought its hash |
| DeriveBooks.DeriveMeans | pkg/derive/deriver.go:417-521 | a derive pass read off its calls: one source per call with a chain, each position new exactly where its hash comes first; each hash kept as its first capture has it; calls, nodes and wire conversations counted; sessions in the order heard |
| DerivedCalls.DerivedCallsAreSeparate | pkg/derive/deriver.go:475-521 | the sources handed to the emitter have each hash new once and distinct identities |
| Refeed.RefeedAddsNoNode | pkg/derive/deriver.go:475-496 | feeding a known turn again adds no node and marks nothing new |
| Refeed.RefedCallIsStale | pkg/derive/deriver.go:475-521 | a turn fed again reaches the emitter as one more call with no position new |
| Refeed.RefeedOpensNoTrace | pkg/derive/spans.go:370-383 | on a spine that has its session, a main call with nothing new shows no input and opens no trace, whatever its chain |
| DerivedCalls.IdentitiesDistinct | pkg/derive/spans.go:1019-1024 | distinct raw rows with distinct request ids have distinct call identities |
| DerivedCalls.SameIdentity | pkg/derive/spans.go:1019-1024 | two calls have one identity exactly when they share a request id, or have none and share raw row and response |
| ToolRegistry.RegistersEachToolOnce | pkg/derive/deriver.go:498-516 | the tool registry lists each tool_use id once, in first-capture order, as its first sighting has it: call index, thread, name, rendering and web flag |
| Deriver.StreamingDeriver.RetainNode | pkg/derive/deriver.go:482-493 | the first capture of a hash is kept; new is reported exactly then |
| Deriver.StreamingDeriver.RegisterTools | pkg/derive/deriver.go:498-516 | the earliest capture of a tool_use id wins |
| Deriver.StreamingDeriver.AddChainTurn | pkg/derive/deriver.go:417-521 | the new state is the specification function of the old one |
| Deriver.DeriveAll | pkg/derive/deriver.go:537-546 | a pass over all calls is the fold the dedup theorems speak of |
| Pipeline.PassIsConsistent | pkg/derive/deriver.go:525-531 | dedup's guarantees survive the attach passes |
| AttachClaims.AttachSettles | pkg/derive/attach.go:38-177 | over all three passes no tool_use is consumed twice and no call anchored twice; each claimed call carries its claim's tool; everything else is untouched |
| AttachClaims.CountersSumToConsumed | pkg/derive/attach.go:78-176 | the three attached counters add up to the number of consumed candidates |
| AttachClaims.ClaimsHaveDistinctAnchors | pkg/derive/attach.go:95-97 | with distinct tool ids, calls of different claims never share an anchor |
| AttachClaims.GroupsPartitionChecks | pkg/derive/attach.go:51-76 | every check with a judged action is in exactly one group; a group has one action and its named threads agree |
| AttachClaims.ThreadsNeverShareAGroup | pkg/derive/attach.go:60-66 | two checks naming different threads are never grouped |
| AttachClaims.RecentSettles | pkg/derive/attach.go:114-177 | web summaries and plans attach to an eligible tool captured no later than the call |
| AttachOrder.EveryChoiceInOrder | pkg/derive/attach.go:38-177 | group by group, the first free fitting tool of the group's own thread is taken, else the first of any, else none; then web summaries and plans take the latest free eligible tool not after the call |
| AttachOrder.StampsFollowClaims | pkg/derive/attach.go:95-110 | after the passes, anchors and node stamps are exactly the last write of a claim that reaches them: own nodes of the call's kind, nothing else |
| AttachOrder.GroupingIsForced | pkg/derive/attach.go:51-76 | a check joins the first group of its action whose named threads do not contradict it; calls stand in order within a group |
| Attacher.GroupChecks | pkg/derive/attach.go:51-76 | the grouping loop computes the specified groups |
| Attacher.MatchToolUse | pkg/derive/attach.go:238-274 | the first unconsumed candidate that fits, in the group's thread when asked |
| Attacher.MostRecent | pkg/derive/attach.go:119-130 | the latest eligible unconsumed candidate not after the call, the last among equals |
| Attacher.AttachVerdictCalls | pkg/derive/attach.go:38-108 | the verdict pass is the specified one, its counters the numbers of its claims and of its groups |
| Attacher.AttachRecentCalls | pkg/derive/attach.go:151-177 | the recency pass is the specified one |
| Attacher.Finish | pkg/derive/deriver.go:525-531 | the three passes in order, each counter the number of its claims; together they are the tools consumed |
| ForestWalk.WalkIsTheTree | pkg/derive/reconcile.go:131-163 | the stack walk under a root visits exactly the main nodes that descend from it through main nodes, each once |
| ForestWalk.ChainsAreDisjoint | pkg/derive/reconcile.go:120-163 | walks from distinct roots never meet, so stamps never conflict |
| ForestWalk.StampsFollowTheRoot | pkg/derive/reconcile.go:120-210 | the outcome in closed form: a node on a main path carries its root's verdict, every other keeps its stamp, whatever the order of roots |
| ForestWalk.ReconcilingTwiceIsOnce | pkg/derive/reconcile.go:92-211 | reconciling a reconciled set changes no stamp and reports the same counts |
| ReconcileJoins.BestJoins | pkg/derive/reconcile.go:172-190 | the first file whose agent is the root's capture-time thread is joined, over any overlap; without one, the first of those signing most blocks of the tree; none where nothing is signed |
| ReconcileJoins.EveryStampIsDecided | pkg/derive/reconcile.go:92-211 | every node's stamp afterwards: the spawn call of the file its root joins where that is a fork of a wire-only session, else the stamp it had |
| ReconcileJoins.CountsAreCardinalities | pkg/derive/reconcile.go:92-211 | the reported counts are the numbers of nodes compared, nodes signed, roots on a main thread and roots stamped |
| CodexSpawns.PathJoinsIffSingleton | pkg/derive/codex.go:238-267 | a path joins exactly when the set of spawn ids reported for it is a singleton, and then to that id |
| CodexSpawns.AnchorFromReports | pkg/derive/codex.go:239-288 | the anchor of a thread is decided by the set of reported (path, spawn id) pairs alone |
| SpawnOrder.ReportsAre | pkg/derive/codex.go:238-267 | where the copies of a node report alike, the pairs read from the first captures are those all captured turns report |
| SpawnOrder.AnchorIgnoresCaptureOrder | pkg/derive/codex.go:239-288 | two capture orders of the same turns give every thread the same anchor when the copies of a node report alike, through attach and root stamps |
| SpawnOrder.FirstCaptureDecides | pkg/derive/codex.go:238-267 | where they do not, order decides: of two sessions sharing the reporting node only the first captured gets its thread anchored |
| CodexSpawns.AnchoringTwiceIsOnce | pkg/derive/codex.go:269-309 | anchoring anchored calls changes nothing |
| CodexSpawns.InteractedRowsAreInert | pkg/derive/codex.go:213-221 | files that differ only in rows that are not spawn evidence give the same stamps, counts and anchors |
| CodexSpawns.ReconcileIsIdempotent | pkg/derive/reconcile.go:47-84 | a second reconciliation of its own result changes nothing |
| CodexAnchors.EveryAnchorIsDecided | pkg/derive/codex.go:208-318 | a wire call of a codex sub-thread takes the tool of its thread's latest started row, else the one spawn id reported for its path, else keeps its anchor; no other call changes |
| CodexAnchors.ResolvesOnce | pkg/derive/codex.go:269-309 | rows and reports decide at most one anchor for a thread |
| CodexAnchors.InteractedCounts | pkg/derive/codex.go:213-221 | the interacted counter is the number of spawn rows that started no thread |
| Reconciler.IndexNodes | pkg/derive/reconcile.go:106-118 | the children index and roots over the main nodes |
| Reconciler.ScoreNode | pkg/derive/reconcile.go:146-158 | per candidate, the count of its signed blocks; matched when some block is signed by some candidate |
| Reconciler.WalkChain | pkg/derive/reconcile.go:131-163 | the explicit-stack walk, its overlaps and joined count |
| Reconciler.Choose | pkg/derive/reconcile.go:172-190 | identity first, else the first of greatest non-zero overlap |
| Reconciler.ReconcileTranscriptChains | pkg/derive/reconcile.go:92-211 | stamps and counts are the specified fold over the roots |
| Reconciler.ReconcileCodexSpawns | pkg/derive/codex.go:208-318 | anchors are the specified ones; the threads seen and anchored are exactly the codex threads and those that resolve |
| Reconciler.ReconcileTranscripts | pkg/derive/reconcile.go:47-84 | both stages in order; the anchored threads are those that resolve, and with the unanchored they are the distinct codex threads |
| Urls.OriginUsableIff | api/cassetterunner/fetch.go:139-151 | an accepted source's origin is a usable proxy target exactly when its decoded host parses as a host once more and keeps a hostname |
| Urls.PlainOriginUsable | api/cassetterunner/registry.go:215-234 | without an escape in the URL, what sourceOrigin accepts validateURL accepts |
| Urls.EscapedPercentBreaksOrigin | api/cassetterunner/fetch.go:139-151 | the implication fails for an escaped percent sign in the host: a concrete URL |
| Urls.EscapedZoneBreaksOrigin | api/cassetterunner/fetch.go:139-151 | it fails too for an escape inside the zone of a bracketed address |
| Urls.BrokenUrlsAreRefused | api/cassetterunner/fetch.go:139-151 | a port that is no number or a broken path escape is refused by sourceOrigin itself |
| UrlTexts.SourceOriginMeans | api/cassetterunner/fetch.go:139-151 | part by part of the text: an http or https URL is accepted exactly when it has a host, no userinfo, an empty fragment and whole escapes; its origin is scheme and decoded host |
| UrlTexts.UsableMeans | api/cassetterunner/registry.go:215-234 | part by part of the text: a proxy target is an http or https URL with a host and neither query nor fragment |
| UrlTexts.NoHostnameIff | api/cassetterunner/fetch.go:141-145 | a host has no hostname exactly when it is nothing but a port, or empty brackets |
| UrlTexts.NoAuthorityIsRefused | api/cassetterunner/fetch.go:139-151 | a URL without an authority is refused by both checks |
| UrlTexts.DecodeInvertsSpelling | api/cassetterunner/fetch.go:140-140 | host decoding undoes every allowed spelling of escapes |
| UrlTexts.DecodedIsSpelled | api/cassetterunner/fetch.go:140-140 | and accepts nothing but such spellings |
| CassetteModel.DocumentedIff | api/cassetterunner/runner.go:236-321 | a refresh from a settled state leaves every registered cassette a document exactly when it is not a takeover whose origin the registry refuses |
| CassetteModel.RefreshKeeps | api/cassetterunner/runner.go:236-321 | otherwise every intermediate state is documented and the final one is settled: one source for instance and document, configured and pinned |
| CassetteModel.SetSourcesKeeps | api/cassetterunner/runner.go:173-213 | replacing the catalogue is documented at every step, settled at the end, and keeps a name exactly when its source stays configured |
| CassetteFreshness.RefreshMeans | api/cassetterunner/runner.go:236-321 | the whole state after any refresh: catalogue, registry and cache after a publication, a roll-back, a 304 for an own document, and a failure |
| CassetteFreshness.StaleExactlyWhenFailing | api/cassetterunner/runner.go:408-411 | a source's own document goes stale on every failure and is fresh after a 304 or a publication; no other source's document changes, save under a name published or rolled back |
| CassetteFreshness.SetSourcesMeans | api/cassetterunner/runner.go:173-213 | the whole state after replacing the catalogue: retained URLs keep their state, new ones start blank, instances and documents go exactly with the sources that own them |
| CassetteModel.SafeOrderNeverBad | api/cassetterunner/runner.go:305-314 | where no source the registry refuses stands before one it serves, no refresh is a bad takeover |
| CassetteModel.PlainIsSafe | api/cassetterunner/fetch.go:139-151 | a catalogue without escapes in its URLs is in a safe order |
| CassetteRuns.CatalogueSafeIff | api/cassetterunner/runner.go:173-321 | a configured catalogue shows every registered cassette with a document at every instant of every run exactly when no refused source stands before a servable one |
| CassetteRuns.UnsafeOrderBreaks | api/cassetterunner/runner.go:305-314 | for every catalogue in an unsafe order, a run that shows a registered cassette without a document |
| CassetteModel.WithdrawEffect | api/cassetterunner/runner.go:196-212 | withdrawing dropped sources removes exactly the names they own, registry first |
| CassetteRuns.RunsStaySafe | api/cassetterunner/runner.go:173-321 | over every run of safely ordered catalogues, with arbitrary fetch outcomes: settled between operations, documented at every instant |
| CassetteRuns.PassConverges | api/cassetterunner/runner.go:220-285 | after a pass in which every source answers, each declared name belongs to the lowest-index source declaring it, whatever the history, and no other name is registered |
| CassetteRuns.DisplacedRegains | api/cassetterunner/runner.go:343-353 | once no earlier source declares its name, a displaced source gets it back on the next answered pass |
| CassetteRuns.RollbackCanStrand | api/cassetterunner/runner.go:310-314 | a concrete pair of sources for which the roll-back leaves a registered cassette without its document |
| CassetteFreshness.NamesAre | pkg/cassette/name.go:32-45 | a cassette name is two to thirty-two lower-case letters, digits and inner hyphens, from a letter on, and not a reserved word |
| CassetteRunner.Registry.Put | api/cassetterunner/registry.go:39-56 | registers exactly when the name is a cassette name and the origin usable; order lists each name once |
| CassetteRunner.Registry.RemoveOwned | api/cassetterunner/registry.go:61-79 | removes the name only from its owner |
| CassetteRunner.SpecCache.Publish | api/cassetterunner/cache.go:47-58 | installs the document, fresh |
| CassetteRunner.SpecCache.Evict | api/cassetterunner/cache.go:61-66 | drops the document whoever published it |
| CassetteRunner.SpecCache.EvictSource | api/cassetterunner/cache.go:71-79 | drops the document only of its own source |
| CassetteRunner.SpecCache.Mark | api/cassetterunner/cache.go:86-113 | marks fresh or stale only the document of that source |
| CassetteRunner.Runner.CheckPriority | api/cassetterunner/runner.go:343-353 | a name may be taken unless an earlier configured source owns it |
| CassetteRunner.Runner.RefreshSource | api/cassetterunner/runner.go:236-321 | the pipeline with its early exits runs exactly the specified atomic actions, whose whole effect CassetteFreshness.RefreshMeans states |
| CassetteRunner.Runner.SetSources | api/cassetterunner/runner.go:173-213 | retained URLs keep their state, dropped ones are withdrawn; from a settled fleet, the whole state in closed form |
| CassetteRunner.Runner.Refresh | api/cassetterunner/runner.go:220-232 | every configured source once, in configured order |
| AnthropicStream.StreamedEqualsOneShot | pkg/capture/anthropic_state.go:74-323 | for any message, any splitting into deltas and any interleaving of the block and message frames, the streamed reduction equals the one-shot one |
| AnthropicStream.SlotsAreIndependent | pkg/capture/anthropic_state.go:92-206 | no content block sees the events of another |
| AnthropicStream.TopIsIndependent | pkg/capture/anthropic_state.go:74-90 | model, role, stop reason, usage and done depend on message-level events only |
| AnthropicStream.SpelledBlock | pkg/capture/anthropic_state.go:92-206 | a block opened, delivered in any deltas and stopped renders as the one-shot block |
| AnthropicStream.CutDeliversPrefixes | pkg/capture/anthropic_state.go:256-323 | wherever a stream is cut, an opened block has its kind and a prefix of its text and thinking |
| AnthropicSlots.EverySlotReadsItsEvents | pkg/capture/anthropic_state.go:92-206 | for every stream: each index holds what its last start gave it and then the deltas since, in order; a delta for an unopened index opens a text block; nothing else makes one |
| AnthropicEnds.EndingsAreMarked | pkg/capture/anthropic_state.go:218-323 | for every stream: done exactly when message_stop came, incomplete exactly when neither it nor a typed failure did, and the stop reason is the last one delivered, else the error, else the cut |
| AnthropicEnds.WholeStreamIsComplete | pkg/capture/anthropic_state.go:256-323 | the stream of a whole message is done and unmarked |
| AnthropicEnds.CutStreamIsMarked | pkg/capture/anthropic_state.go:304-309 | a stream cut before message_stop with no failure is incomplete, not done, and stops for the last delivered reason or for being cut |
| AnthropicEnds.FailedStreamSaysSo | pkg/capture/anthropic_state.go:240-251 | a stream ended by a typed error is not marked cut and stops for the error unless a reason had come |
| AnthropicEnds.LastErrorIsOnRecord | pkg/capture/anthropic_state.go:240-251 | the failure on record is the last error event's type and message |
| AnthropicEnds.BadInputsAreCounted | pkg/capture/anthropic_state.go:177-206 | the parse failures recorded are the stops of tool blocks whose delivered input is not empty and does not parse |
| AnthropicReducer.TurnState.OnMessageStart | pkg/capture/anthropic_state.go:74-90 | the new state is the specification function of the old one |
| AnthropicReducer.TurnState.OnContentBlockStart | pkg/capture/anthropic_state.go:92-141 | the block replaces what the index held; an empty placeholder input counts as unset |
| AnthropicReducer.TurnState.OnContentBlockDelta | pkg/capture/anthropic_state.go:143-175 | the delta is appended to its own accumulator; an unopened index gets a text block |
| AnthropicReducer.TurnState.OnContentBlockStop | pkg/capture/anthropic_state.go:177-206 | pending input fragments are parsed once and discarded, a parse failure recorded |
| AnthropicReducer.TurnState.OnMessageDelta | pkg/capture/anthropic_state.go:218-233 | the latest non-empty stop reason and the latest usage win |
| AnthropicReducer.TurnState.OnError | pkg/capture/anthropic_state.go:240-251 | the error is kept and only an empty stop reason becomes error |
| AnthropicReducer.TurnState.Dispatch | pkg/capture/anthropic.go:188-224 | dispatch by event type; the first malformed frame is recorded |
| AnthropicReducer.TurnState.FinalizeTurn | pkg/capture/anthropic_state.go:256-323 | content in index order with gaps skipped, totals summed, a stream with neither a stop nor a failure marked incomplete, as AnthropicEnds reads it off the events |
| AnthropicReducer.ReduceStream | pkg/capture/anthropic.go:146-186 | the loop is the fold of the steps: it agrees with the one-shot reduction of every message the events stream, and marks endings as the events have them |
| AnthropicReducer.ReduceOneShot | pkg/capture/anthropic.go:74-144 | the one-shot loop is the reference reduction |
| Dispatcher.EveryRunIsBounded | extproc/dispatcher.go:512-579 | under every interleaving held slots and bytes equal the sums over the dispatches in flight and never exceed the caps |
| Dispatcher.QuiescenceReturnsEverything | extproc/dispatcher.go:571-578 | when all dispatches have finished nothing is held, and each recorded exactly one accept or drop after at most three posts |
| Dispatcher.EveryStepIsProgress | extproc/dispatcher.go:638-712 | every step whose answer has come brings its dispatch closer to finished, within twenty steps, whatever the others do |
| Dispatcher.OutcomeSaysWhatHappened | extproc/dispatcher.go:681-710 | accept exactly on 200 or 202, reject on any other reply below 500, a full semaphore exactly where no slot was free or the bytes did not fit, timeout exactly where the context ended, the request could not be built or the third attempt failed |
| Dispatcher.PostWithRetry | extproc/dispatcher.go:638-712 | the retry loop takes the state machine's own steps; the first attempt that does not retry decides; three posts and 1.5 s of backoff at most |
| Dispatcher.Dispatches.Dispatch | extproc/dispatcher.go:512-579 | one dispatch end to end: it leaves both semaphores as it found them and itself finished with one outcome, refused or as the retry loop says |
| Dispatcher.Dispatches.Admit | extproc/dispatcher.go:512-549 | a refused dispatch holds nothing and records why; an admitted one holds a slot and its marshalled size |
| Dispatcher.Dispatches.Finish | extproc/dispatcher.go:571-578 | post until settled, then bytes and slot are given back |
| Dispatcher.Dispatches.TakeSlot | extproc/dispatcher.go:513-519 | the non-blocking send, or the drop on a full channel |
| Dispatcher.Dispatches.Marshal | extproc/dispatcher.go:521-538 | a marshal failure gives the slot back |
| Dispatcher.Dispatches.AcquireBytes | extproc/dispatcher.go:543-549 | bytes are taken whole or the slot is given back |
| Dispatcher.Dispatches.Release | extproc/dispatcher.go:571-576 | the deferred release returns the bytes, then the slot |
| ProcessorModel.OneOutcomePerStream | extproc/processor.go:223-332 | with at most one response end of stream at most one terminal outcome, and exactly one if the request ended, a response byte arrived or the response ended |
| ProcessorModel.RequestBufferIsPrefix | extproc/processor.go:384-421 | the request buffer is a whole number of leading chunks within the budget, all of them unless over budget |
| ProcessorModel.DropsFollowPrecedence | pkg/capture/dropreason.go:96-106 | a completed response phase with a status, within budget, is dropped exactly for the first applicable reason of the shared list, and dispatched exactly when none applies |
| ProcessorModel.DispatchedIsPostable | extproc/processor.go:439-704 | what is dispatched has bytes, a reducer, and that reducer's reply on those bytes |
| CapturedTurns.DispatchedCarriesTheTurn | extproc/processor.go:439-704 | what is dispatched is decided by the messages up to one of them: provider, decoded request and content type as sent, the reply the reducer gives on the decode of all response chunks in order, and those very bytes where bytes are aboard |
| CapturedTurns.StateReadsMessages | extproc/processor.go:280-305 | headers in force are the last ones received, and the response buffer is the concatenation of all response chunks in order |
| CapturedTurns.RequestReadsMessages | extproc/processor.go:384-421 | the request state read off the messages: over budget on the wire or once decoded, decoded, or failed to decode |
| CapturedTurns.EarlyCloseMeans | extproc/processor.go:231-261 | how a stream that never saw the response end is classified, from its messages |
| CapturedTurns.ResponseEndMeans | extproc/processor.go:307-324 | how a stream is classified at the response's end, from its messages |
| Processor.StreamState.OnRequestBody | extproc/processor.go:384-421 | the capture half of the request-body handler |
| Processor.StreamState.DispatchTurn | extproc/processor.go:439-704 | the gates in order, then the envelope |
| Processor.StreamState.BuildEnvelope | extproc/processor.go:653-701 | the raw-lane decision written onto the envelope |
| Processor.StreamState.OnClose | extproc/processor.go:231-261 | the deferred classification of a stream closed early |
| Processor.Process | extproc/processor.go:223-332 | the message loop and the close; at most one outcome, exactly one when there was a turn, and every dispatched envelope carries the turn as its messages have it |
| RawLane.NeverBothAbsent | extproc/rawlane.go:197-216 | a turn with bytes and a reduction is never posted with neither |
| RawLane.WithheldMeansWanted | extproc/dispatcher.go:597-633 | withheld is set exactly when the mode wanted bytes and none are aboard; bytes aboard are the captured ones; the reduction stays behind exactly in raw mode with bytes aboard |
| RawLane.OversizeCarriesNoBytes | extproc/dispatcher.go:597-633 | nothing over the body limit is posted with bytes aboard when the stripped envelope marshals |
| RawLane.ReserveSuffices | extproc/rawlane.go:85-117 | where the unmeasured parts fit the reserve, estimate and backstop agree and a request within budget fits the body limit |
| RawLane.LimitsAreConsistent | ingest/ingest.go:785-812 | a full decoded request with any storable response fits, and the decoder cap exceeds the request budget |
| RawLane.Base64IsPadded | extproc/rawlane.go:98-100 | three bytes become four characters, the last group padded |
| RawLane.StorableBytesGoAboard | extproc/rawlane.go:103-117 | bytes ingest would store are posted in every mode that wants them, and in no other |
| RawLane.EnforceBodyLimit | extproc/dispatcher.go:597-633 | the copy-and-edit backstop is the specified one |
| Ingest.StoresTheReduction | ingest/ingest.go:709-874 | every mode stores the processor's reduction up to timestamp and duration |
| Ingest.ModesAgree | extproc/rawlane.go:197-216 | off, dual and raw store the same reduction up to timestamp and duration |
| Ingest.BytesAreVerbatimOrMarked | ingest/ingest.go:814-874 | stored bytes are the captured ones under the captured encoding, and a row is marked dropped exactly when its mode wanted bytes and none are stored |
| Ingest.RowHasReduction | ingest/rawreduce.go:145-172 | a row has a reduction exactly when the reducer returned one |
| Ingest.StorableBytesAreStored | ingest/ingest.go:814-874 | bytes within the storage cap are stored, unmarked, in every mode that wants them |
| Ingest.AbsentIsZero | ingest/rawreduce.go:191-207 | a response is absent exactly when there is none or it is the zero one |
| Ingest.CarriedReductionIsStored | ingest/ingest.go:709-783 | a reduction that came with the envelope is stored untouched |
| Ingest.ReducedHereIsDated | ingest/rawreduce.go:234-331 | a reduction made at ingest is dated by the completion stamp, else the request stamp plus the measured duration, else the reducer; and lasts what was measured, within a week |
| Ingest.ModesAgreeOnDuration | ingest/rawreduce.go:234-262 | with a measured duration within bounds every mode stores it |
| Ingest.WithinReserveLands | extproc/rawlane.go:92-117 | within the reserve every turn the processor lets through lands, in every mode |
| Ingest.ReduceRawOnly | ingest/ingest.go:709-783 | reduces exactly a payload with bytes and no reduction, and stamps duration and capture time |
| Ingest.PersistRawTurn | ingest/ingest.go:814-874 | the storage cap and the dropped marker |
| Ingest.HandleIngest | ingest/ingest.go:426-447 | reduce, then persist |
| ContentEncoding.DecodeInvertsEncode | pkg/capture/contentencoding.go:82-125 | decoding the encoded body under any spelling of the joined header gives the body back: case, spacing, empty and identity tokens make no difference |
| ContentEncoding.PlainHeaderDecodes | pkg/capture/contentencoding.go:82-125 | in particular under the names joined by bare commas |
| ContentEncoding.FailureAndSalvage | pkg/capture/contentencoding.go:94-105 | the decode fails exactly when some layer it reaches fails, and is truncated exactly when some layer was salvaged |
| ContentEncoding.SalvageIsBounded | pkg/capture/contentencoding.go:236-255 | a layer decodes exactly when its coding is known, there are bytes, and its stream within the cap ended cleanly, or early with some output, which alone is salvage; an oversize stream is refused however it ended |
| ContentEncoding.HeaderLayers | pkg/capture/contentencoding.go:114-125 | the layers of a header are the names its tokens spell |
| ContentEncoding.DecodeContentEncoding | pkg/capture/contentencoding.go:82-106 | the peeling loop, outermost layer first |
| ContentEncoding.SplitContentEncoding | pkg/capture/contentencoding.go:114-125 | the splitting loop |

## Left out

- Calls of transcript source inside the span emitter: their prompt, input and identity rules; the emitter is modelled for wire calls.
- Prefixes of hashes in trace and span ids: ids are the full identities.
- Spawn labels, display names of tools, verdict text, prompt and response previews, terminal status of a trace, task folds: presentation, one branch each.
- Cost and pricing: floating point over a price table.
- Session titles and their source priority, and the first-wins thread metadata of the deriver: one-branch maps.
- Parse failures, unattached-action samples and other capped report lists: no property of their own.
- The per-action index of the verdict pass is searched as one list in creation order, which finds the same group.
- Retained nodes are shared by hash through one map, so a stamp shows in every call that shares the node; object identity beyond that is not modelled.
- The text tests of the tool matcher, the renderer and the action normaliser: uninterpreted.
- Block signatures of transcripts and the insides of transcript files: a file is its session, identity, evidence flag and set of signatures.
- CassetteRuns.RunsStaySafe: asks for catalogues in a safe order, because without it the property is false; CassetteRuns.CatalogueSafeIff shows the condition is exact.
- Rejection records, digests and problem texts of the cassette runner, and its logging.
- Of URLs, only what the two origin checks read, for the two schemes they admit.
- created_at, the raw response copy and the stop sequence of a reduction; the texts of error diagnostics. A nil and an empty tool input are identified in comparisons.
- The OpenAI reducer: the raw-lane theorems hold for any deterministic reducer.
- Case folding and white space outside ASCII and Latin-1 in Content-Encoding headers.
- The recv limit and header parsing of the gateway, the session envelope, response-mode overrides, metrics and logs.
- Exact JSON sizes: an envelope is its request, its bytes in base64 and an arbitrary remainder.
- The asynchronous worker behind ingest and its admission: the model ends at the raw-layer write.
- Latency and in-flight gauges of the dispatcher, and observer panics.
- HTTP, gRPC, SQL, configuration files and command lines.
