# AgentForge: a verified model of its run, transport and replay logic

AgentForge runs language-model agents: a gateway puts a task on a Redis stream, a worker runs the model/tool loop and
publishes its events, and clients follow those events over gRPC, over the ACP frame protocol, or through a control plane
that records them for browsers. This project models the parts where order, loss, duplication or interleaving decide
correctness, and proves what they promise for all inputs, all runs and all schedules.

Calls into Redis, Docker, a model provider, a tool, a hook, the clock or the network are replaced by abstract state or by
functions that may answer anything. Code that changes state step by step is written as classes and methods with loops,
each proved against a specification; what the system promises is then proved about the specification. Where goroutines or
processes interleave, either a state machine has one label per atomic step and its theorems hold for every sequence of
labels, or the schedule is an arbitrary function the method consults between its own steps.

| module | what it holds |
|---|---|
| `PipelineGraph`, `PipelineOrder`, `Orchestrator` | cycles and orders of step graphs; Kahn's algorithm with a sorted ready list; validation, the supervisor's budgets, the local pipeline runner |
| `History`, `Compaction` | the run history with soft deletion and range folding; the policy that folds its middle |
| `Trace`, `Runner` | run states and events read by a monitor; one agent run with its tool loop, transcript and published trace |
| `Queue` | the consumer group with retries and dead letters, for the task stream and the tool stream |
| `Bytes`, `Codec`, `EventCache`, `AcpSession` | 64-bit shifts and ors; ACP frames; the event log; a connection with its writer goroutine, and resuming |
| `Gateway`, `ControlPlane` | forwarding a run to its client; pipelines through the queue; the recorded event list and its polling reader |
| `Pool` | the warm sandbox pool with concurrent acquire, release, refill and close |
| `Chunker`, `LlmStream`, `Selector`, `Strings` | text chunking; the chat-completions stream; skill selection and its cache; Go's string order and white space |
| `EndToEnd` | a run as a browser sees it, and as a reconnecting ACP client holds it |

Six promises turn out not to hold as such, and are given with the exact condition under which they do and an input that
shows they can fail:

* State moves chain contiguously exactly unless COMPACTING was announced and the fold, or the render after it, failed
  (`Runner.AgentRunner.Run`, `Runner.FailedFoldBreaksChain`; `internal/agent/runner.go:96-106`).
* A published task is lost exactly by a failed XADD, because its entry is acknowledged all the same
  (`Queue.FailedAddLosesTask`, `Queue.NothingIsLostWithoutFaults`, `Queue.FailedAddCanHappen`;
  `internal/queue/stream.go:147-151`).
* Decoding a varint and encoding it again gives the same bytes exactly for shortest varints; padded ones are accepted
  (`Codec.ReencodesWhenShortest`, `Codec.PaddedLengthIsAccepted`; `pkg/acp/codec.go:80-101`).
* Cutting a long paragraph ends on every text exactly if the overlap is at most half of maxChars: for any larger overlap
  there is a text on which it starts over at 0 (`Chunker.SplitLong`, `Chunker.LargeOverlapStandsStill`;
  `internal/rag/chunker.go:83-109`).
* The ready and in-flight counts that Stats reports fit the pool size exactly if, between its two reads, the pool did not
  grow by more than the room there was (`Pool.Driver.GetStats`, `Pool.StatsBound`, `Pool.StatsCanOverstate`;
  `internal/sandbox/memory.go:145-157`).
* A pipeline step without error reached its Done event exactly if that event got through before the channel was closed: a
  closed channel counts as success (`Gateway.RunPipelineStep`, `Gateway.CancelledStepLooksGood`;
  `cmd/gateway/service.go:285-288`).

Where the documentation and the code differ, the model follows the code. The protocol description in `pkg/acp` has RESUME
go on with live events and a log member be the bare payload; the code closes the connection after the replay and appends
the sequence number to each member. It also has a payload that cannot be decoded answered with nothing; the code answers a
RUN or RESUME payload that cannot be decoded with an ERROR frame.

## Model

| member | source | states |
|---|---|---|
| `PipelineOrder.TopologicalOrder` | internal/orchestrator/pipeline.go:134-169 | For every step list, duplicate ids and unknown or repeated dependencies included: it succeeds exactly if a topological order exists, and returns the one that is lexicographically least by the byte order of ids; with unique ids and resolvable dependencies it succeeds exactly if the graph has no cycle |
| `Strings.LessIsFirstDifference` | internal/orchestrator/pipeline.go:145-164 | The order ids are sorted by: a string is less than another exactly if it is a proper initial part of it or smaller at the first place where they differ |
| `PipelineOrder.Conclude` | internal/orchestrator/pipeline.go:165-168 | Once `ready` is empty: all steps out means the least order, fewer means that no order exists, and with resolvable unique ids that there is a cycle |
| `PipelineOrder.RoundRolls` | internal/orchestrator/pipeline.go:151-164 | A round of the loop keeps the in-degree counts exact against what is already out, `ready` exactly the available ids, and the output greedy |
| `PipelineOrder.HeadIsLeast` | internal/orchestrator/pipeline.go:145-153 | The head of the sorted ready list is the least id whose dependencies are all out |
| `PipelineOrder.BuildTables` | internal/orchestrator/pipeline.go:135-144 | The child lists count, for each pair of steps, how often one lists the other as a dependency |
| `PipelineOrder.InitialReady` | internal/orchestrator/pipeline.go:145-150 | Whatever order the map yields its keys in, `ready` is the sorted list of the ids with count zero |
| `PipelineOrder.ReleaseChildren` | internal/orchestrator/pipeline.go:154-163 | Counts drop by the number of occurrences; exactly those that reach zero join `ready`, which stays sorted and without repeats |
| `PipelineOrder.LeftoversHaveCycle` | internal/orchestrator/pipeline.go:165-167 | The steps left over on a cycle error contain a real dependency cycle |
| `PipelineOrder.ShortOutputMeansNoOrder` | internal/orchestrator/pipeline.go:165-167 | If steps are left over that all wait, no topological order exists |
| `PipelineOrder.RepeatedIdsMeanNoOrder` | internal/orchestrator/pipeline.go:134-169 | Repeated ids admit no order, so the error is right there too |
| `PipelineGraph.GreedyIsLeast` | internal/orchestrator/pipeline.go:145-164 | Always taking the least available id gives the lexicographically least of all topological orders |
| `PipelineGraph.LeastOrderIgnoresListing` | internal/orchestrator/pipeline.go:134-169 | Two files listing the same steps in different orders have the same least order |
| `PipelineGraph.CycleBlocksOrder` | internal/orchestrator/pipeline.go:165-167 | A step list with a dependency cycle has no topological order |
| `PipelineGraph.LeftoverHasCycle` | internal/orchestrator/pipeline.go:165-167 | A nonempty set of steps each of which waits for another of the set contains a cycle |
| `Orchestrator.ValidatePipeline` | internal/orchestrator/pipeline.go:106-131 | Which error is returned for which step list, in both directions; success exactly for well-formed, resolvable, acyclic lists |
| `Orchestrator.Supervisor.Dispatch` | internal/orchestrator/types.go:78-139 | Each of the four outcomes with its exact condition in terms of the configured limits or their defaults, the child request field by field, the counter, and the completed result: a failure is an error result with its message, of a result only empty fields are filled in; over any history of calls there is one runner call per counted child and none beyond the limit |
| `Orchestrator.RunSteps` | internal/orchestrator/pipeline.go:179-203 | Each step is asked, on its caller's behalf, with its role and a prompt made from the results of the steps before it; each result is the completed answer to its request, only the last may be a failure, and its error is the pipeline's; with a runner that never fails all steps run exactly if their number fits what is left of the budget |
| `Orchestrator.PromptHoldsLines` | internal/orchestrator/pipeline.go:184-194 | A prompt is the task and, after a heading, one line for each dependency in the order listed, with its id and its result's status and summary |
| `Orchestrator.QuotedStepsRanWell` | internal/orchestrator/pipeline.go:184-194 | Each dependency quoted in a request is a step that ran before it without error, with the answer to its own request |
| `Orchestrator.RunPipeline` | internal/orchestrator/pipeline.go:172-204 | Runs the least order up to the first failure, each result being the answer to its request; with fresh counters and a runner that never fails it completes exactly if the steps fit the budget; a disabled supervisor yields status ok with disabled results |
| `Orchestrator.DependenciesAlreadyRan` | internal/orchestrator/pipeline.go:184-194 | Each dependency quoted in a prompt is a step that ran earlier, with that step's result |
| `Orchestrator.OutputsHoldEarlierResults` | internal/orchestrator/pipeline.go:195-199 | The result table holds under each id the result of that very step |
| `History.RunHistory.Append` | internal/history/redis_store.go:29-51 | The rendered history grows by exactly the new message at its end; ids and versions are assigned as the store does |
| `History.RunHistory.Patch` | internal/history/redis_store.go:76-84 | Only the content of one message changes and its version goes up by one; the rendered list changes in that place alone |
| `History.RunHistory.Hide` | internal/history/redis_store.go:86-94 | The rendered list loses exactly that message; the message itself stays stored, hidden and one version up |
| `History.RunHistory.Fold` | internal/history/redis_store.go:96-161 | The visible messages of the id range are hidden and bumped, everything outside is untouched, and the rendered list becomes what is outside the range plus the summary |
| `History.FoldRenders` | internal/history/redis_store.go:96-193 | Hiding an id range and adding a summary renders as the old list without the range, then the summary |
| `History.RenderAfterHiding` | internal/history/redis_store.go:163-193 | Rendering after a range is hidden is the old rendering without the messages of that range |
| `History.RenderedAscending` | internal/history/redis_store.go:163-193 | Rendered ids rise strictly, and each rendered message is a visible stored one |
| `History.WithoutIsSlice` | internal/history/redis_store.go:112-160 | On a list with rising ids, dropping an id range drops a contiguous slice |
| `Compaction.CompactIfNeeded` | internal/orchestrator/types.go:150-183 | Folds exactly when enabled, over the configured number of characters (24000 by default) and long enough for the configured head and tail (0 and 8 by default); then the next rendering is head ++ tail ++ summary, strictly shorter, folded messages are one version up, and every other message is unchanged |
| `Compaction.SummaryHoldsLines` | internal/orchestrator/types.go:186-197 | Up to trailing white space a summary is its heading and one line for each folded message, in order: its role and its words, cut after 180 characters |
| `Compaction.FoldCompacts` | internal/orchestrator/types.go:150-183 | A fold of the middle of a rendered list leaves prior[..keepHead] ++ prior[n-keepTail..] ++ [summary] and changes no message outside the middle |
| `Compaction.RangeIsSlice` | internal/orchestrator/types.go:166-179 | The stored visible messages between two rendered ids are exactly the rendered slice between them |
| `Trace.TerminalIsLast` | internal/agent/runner.go:315-324 | In a monitored trace a terminal event is the last event |
| `Trace.CompleteRunEndsOnce` | internal/agent/runner.go:608-632 | A complete trace has exactly one terminal event, at its end, Done after DONE and Error after FAILED |
| `Trace.TokensAreNumbered` | internal/agent/runner.go:351-408 | Token indices are the number of tokens before them, and Done.Total is the number of tokens |
| `Trace.StatesMoveLegally` | internal/agent/state.go:19-49 | Every published state move is in the transition table |
| `Trace.MovesByTarget` | internal/agent/state.go:19-49 | The transition table read by target: what can fail, complete, wait, compact, and come back to RUNNING |
| `Trace.StartedCallsAreClosed` | internal/agent/runner.go:246-269 | Each started tool event is closed by a completed or failed one of the same call before any other tool event |
| `Trace.ChainedMeansContiguous` | internal/agent/state.go:19-49 | The monitor's flag is exactly that From/To chain contiguously from PENDING |
| `Runner.Drain` | internal/agent/runner.go:371-408 | Tokens published are the nonempty tokens up to the first error or done event, numbered on; the text is their concatenation and the calls those heard; it fails exactly if an error comes first |
| `Runner.TokensPick` | internal/agent/runner.go:383-407 | The tokens are those of exactly the events that have one, in order |
| `Runner.FinishedRunReads` | internal/agent/runner.go:53-326 | What a reader may rely on: one terminal event, last; total equals tokens; moves end in that state; the chain is contiguous exactly if no closing move was skipped |
| `Runner.AgentRunner.RunCall` | internal/agent/runner.go:245-312 | The two timeline events, the execution, the reply with the call's id and result, the stored tool message, and the failure path, each exactly; the closing event is completed exactly if the tool answered without an error, and otherwise says why |
| `Runner.TimelineTextIsCut` | internal/agent/runner.go:645-651 | Short results are shown whole, longer ones cut after 4096 characters, with a note |
| `Runner.AgentRunner.RunCalls` | internal/agent/runner.go:245-313 | One reply per requested call, in order, executed in that order, with exactly their timeline events; a broken tool ends the run as tool_execute |
| `Runner.AgentRunner.Settle` | internal/agent/runner.go:205-239 | After an answer the run ends, with the error code the answer calls for, or goes on to tools that may run; what is stored of the answer |
| `Runner.AgentRunner.Loop` | internal/agent/runner.go:194-326 | At most ToolMaxSteps+1 provider calls; every request is the one before it, the assistant's message and exactly one reply per call with the same id and the executed result; the trace is the rounds' tokens, moves and tool events, the last answer's tokens, and the end that answer calls for |
| `Runner.AgentRunner.Compose` | internal/agent/runner.go:107-192 | The first request: the system prompt or its default if blank, skills and retrieved context unless empty, the lines of an allowing hook that are not blank, then every message shown, all in order |
| `Runner.AgentRunner.CompactHistory` | internal/agent/runner.go:437-466 | COMPACTING is announced exactly when the policy will fold |
| `Runner.AgentRunner.LoadHistory` | internal/agent/runner.go:80-104 | The history shown to the model, folded or not; a failed fold, or a failed render after one, is exactly when the closing move is skipped |
| `Runner.AgentRunner.Run` | internal/agent/runner.go:53-326 | For every provider, tool, hook and history behaviour: exactly when the model is asked at all, and with which error the run ends if not; the first request is as composed and holds the user's prompt, and each further one is the one before plus one round; a complete trace whose chain is contiguous exactly unless folding was announced and failed, consisting of the opening moves, the tokens and tool events of the answers and executed calls, and the end the last answer calls for; the step limit, configured or 5 |
| `Runner.FailedFoldBreaksChain` | internal/agent/runner.go:96-106 | A run whose fold fails: its trace is complete and its moves do not chain |
| `Runner.AgentRunner.RunChild` | internal/agent/runner.go:520-578 | A complete child trace from at most one provider call, asked with the child's system prompt and its role and task; success exactly if nothing failed, with the trimmed answer as summary and both messages stored |
| `Queue.ReachableInv` | internal/queue/stream.go:93-164 | The protocol invariant holds after every schedule of any number of consumers |
| `Queue.TasksAreConserved` | internal/queue/stream.go:93-164 | At every moment each published task has exactly one copy that counts: live, won, dead-lettered with exactly one letter, or lost to a failed XADD |
| `Queue.NothingIsLostWithoutFaults` | internal/queue/stream.go:139-151 | With no failed XADD nothing is lost |
| `Queue.FailedAddLosesTask` | internal/queue/stream.go:147-151 | Each failed XADD does lose its task, since the entry is acknowledged all the same |
| `Queue.FailedAddCanHappen` | internal/queue/stream.go:147-151 | For every task there is such a schedule: added, read, failed, lost |
| `Queue.HandlerRunsAreBounded` | internal/queue/stream.go:126-151 | A handler runs at most max(1, limit - first attempt) times, and exactly that often before dead-lettering |
| `Queue.NothingIsAckedEarly` | internal/queue/stream.go:112-155 | An entry leaves the pending list only after its outcome or successor was recorded or failed to be |
| `Queue.OutcomesAreFinal` | internal/queue/stream.go:126-164 | No later step changes the outcome or the run count of a settled publication |
| `Queue.RetriesCarryTheTask` | internal/queue/stream.go:137-148 | Every retry is the published task with only the attempt counter raised |
| `Queue.StreamQueue.Publish` | internal/queue/stream.go:63-78 | Adds one entry to the stream and changes nothing else: one Add step of the protocol |
| `Queue.StreamQueue.ConsumeOne` | internal/queue/stream.go:93-155 | One pass of the loop: a failed task is added again with its attempt raised exactly if that stays below maxRetry, or below the default if maxRetry is not positive; otherwise exactly its letter is added; the entry is acknowledged. These are the protocol steps its message and the handler's verdict call for |
| `Queue.StreamQueue.Consume` | internal/queue/stream.go:93-155 | The loop keeps the invariant, takes one entry per round until none is left, and never runs a handler more often than maxRetry, or its default, allows |
| `Queue.HandlingHappens` | internal/queue/tool_stream.go:84-151 | What one handled message leaves in the stream, the pending list and the dead-letter stream; with limit 1 this is the tool queue |
| `Codec.FrameRoundTrip` | pkg/acp/codec.go:21-77 | Decoding an encoded frame gives the frame back and uses exactly its bytes, whatever follows |
| `Codec.FrameLayout` | pkg/acp/codec.go:21-40 | Where each field is in a frame, the number with its most significant byte first |
| `Codec.StreamRoundTrip` | pkg/acp/codec.go:21-77 | Any concatenation of frames decodes to those frames |
| `Codec.StreamIsUnambiguous` | pkg/acp/codec.go:21-77 | Two frame sequences with the same bytes are the same |
| `Codec.UvarintRoundTrip` | pkg/acp/codec.go:80-101 | Every 64-bit value survives encoding and decoding |
| `Codec.DecodedFits` | pkg/acp/codec.go:80-101 | No accepted varint exceeds 64 bits |
| `Codec.ReencodesWhenShortest` | pkg/acp/codec.go:80-101 | Decoding then encoding gives the same bytes exactly for shortest varints: padded ones are accepted |
| `Codec.PaddedLengthIsAccepted` | pkg/acp/codec.go:45-101 | A frame whose length is padded, which is accepted and written again one byte shorter |
| `Codec.PartialFrameIsNotRead` | pkg/acp/codec.go:45-77 | Leading bytes of one more frame at the end of a stream add no frame |
| `Codec.ShiftKeepsGroup` | pkg/acp/codec.go:87-97 | Shift and or lose no bit and are exact addition of the 7-bit group |
| `Codec.TruncatedFrame` | pkg/acp/codec.go:45-77 | A frame cut short is never taken for a frame |
| `Codec.CutStreamReadsPrefix` | pkg/acp/codec.go:45-77 | However a stream is cut, what is read is an initial run of the frames sent |
| `Codec.WholeFramesAreRead` | pkg/acp/codec.go:45-77 | Every frame whose bytes all arrived is among the frames read |
| `Codec.Reader.ReadUvarint` | pkg/acp/codec.go:80-101 | The shift-and-or loop returns the exact sum of the groups or the error of the format, and reads no byte too many |
| `Codec.WriteFrame` | pkg/acp/codec.go:21-40 | Writes exactly the encoding, in one call; refuses over 16 MiB without writing; a short write leaves a prefix |
| `Codec.ReadFrame` | pkg/acp/codec.go:45-77 | Agrees with the format on every byte string, errors included, and leaves the rest unread |
| `Codec.PutUvarint` | pkg/acp/codec.go:30-33 | Fills the buffer with the varint of the length and nothing before it |
| `EventCache.EncodeMember` | internal/acp/eventcache.go:78-85 | The byte loop writes payload followed by the big-endian number |
| `EventCache.DecodeMember` | internal/acp/eventcache.go:88-99 | The shift-and-or loop reads the number back exactly; shorter strings are refused |
| `EventCache.MemberRoundTrip` | internal/acp/eventcache.go:76-99 | Encoding a member and decoding it gives number and payload back |
| `EventCache.MembersDiffer` | internal/acp/eventcache.go:76-85 | Two events share a member exactly if they are the same event, so equal payloads do not collide |
| `EventCache.AppendGrowsLog` | internal/acp/eventcache.go:37-46 | Appending the next number to the ordered set appends to the log |
| `EventCache.AppendTwiceIsOnce` | internal/acp/eventcache.go:37-46 | A repeated append changes nothing |
| `EventCache.ZAddKeepsOrder` | internal/acp/eventcache.go:37-46 | The set stays in score order and holds the new entry and every old one with another member |
| `EventCache.LessBytesIsFirstDifference` | internal/acp/eventcache.go:37-46 | Members with equal scores compare byte by byte |
| `EventCache.AboveIsEnd` | internal/acp/eventcache.go:49-68 | Of an ordered set, the entries above a number are its end, from the first of them on |
| `EventCache.ReplayIsRest` | internal/acp/eventcache.go:49-68 | Replay after a number is exactly the rest of the log |
| `EventCache.ReusedNumbersPileUp` | internal/acp/session.go:81-86 | If a run id is used twice, numbering restarts and replay mixes the runs |
| `EventCache.Cache.Append` | internal/acp/eventcache.go:37-46 | Adds the event to its own run's set and touches no other run |
| `EventCache.Cache.Replay` | internal/acp/eventcache.go:49-68 | Returns the decoded entries above the number, in order |
| `AcpSession.WireIsPrefixOfLog` | internal/acp/session.go:189-214 | At every step of every schedule the events on the wire are an initial part of the cached log, numbered 1 to n; while the connection holds, the rest is queued or about to be |
| `AcpSession.ClientReadsPrefixOfLog` | internal/acp/session.go:257-284 | However the bytes are cut, in transit or by a write that fails within a frame, the client reads events 1 to m of the log |
| `AcpSession.UnstoredEventIsNeverReplayed` | internal/acp/session.go:207-211 | An event whose caching failed is in no replay, however the run goes on |
| `AcpSession.UnstoredEventCanBeSent` | internal/acp/session.go:207-211 | And it can be on the wire two steps later |
| `AcpSession.RunFlows` | internal/acp/session.go:257-284 | Frames reach the wire in sending order without gaps; the queue never exceeds 256 |
| `AcpSession.ResumeReplaysPrefix` | internal/acp/session.go:160-186 | A RESUME puts an initial part of the requested events on the wire, and all of them if the connection holds |
| `AcpSession.ReconnectsKeepPrefix` | internal/acp/session.go:160-186 | After any number of reconnects, each cut anywhere, what the client holds is the log up to some event, without gap or duplicate; a full replay completes it |
| `AcpSession.Session.Emit` | internal/acp/session.go:189-214 | An event is numbered, cached and sent in that order, with END_STREAM exactly if it ends the stream; a closed session refuses it and changes nothing |
| `AcpSession.Session.EmitAll` | internal/acp/session.go:189-214 | The frames sent are those of an initial part of the dispatcher's events, numbered on, each with its own end flag; all of them unless the session is killed or out of numbers |
| `AcpSession.Session.HandleRun` | internal/acp/session.go:131-158 | The dispatcher's events go out in order, flagged as the dispatcher says, all unless the session is killed, then the closing frames |
| `AcpSession.Session.HandleResume` | internal/acp/session.go:160-186 | Sends exactly the replay and the closing frame, or exactly the error frame |
| `AcpSession.Session.Shutdown` | internal/acp/session.go:60-66 | Empties the queue; a session killed by a full queue never ends |
| `AcpSession.Session.Serve` | internal/acp/session.go:57-129 | For any client frames and any writer schedule: what the connection is for, every frame it sends in order, what it puts on the wire, that each event on the wire carries END_STREAM exactly if the dispatcher's event of its number ends the stream, how the wire relates to the cached log or to the replay, and that a session whose writer keeps up with the sends is never killed |
| `Gateway.RunAgent` | cmd/gateway/service.go:141-229 | In every interleaving of gateway and worker the client gets the published events in order up to and including the first terminal one; with timeouts, cancelling or send failures, an initial part; a steady worker is not timed out early |
| `Gateway.Forward` | cmd/gateway/acp_dispatcher.go:62-84 | The same loop on the ACP side, which passes over tool events |
| `Gateway.RetriesAreUnseen` | cmd/gateway/service.go:195-229 | Retries publish on the same topic, but the stream is exactly the first attempt's trace |
| `Gateway.ClientReadsFirstAttempt` | cmd/gateway/service.go:231-255 | The client's stream is the attempt's trace, or over ACP the same moves, tokens and ending without tool events |
| `Gateway.AcpKeepsTheRest` | cmd/gateway/acp_dispatcher.go:86-98 | Hiding tool events changes neither moves, tokens, text nor the last event |
| `Gateway.ShownPicks` | cmd/gateway/acp_dispatcher.go:62-84 | What is shown over ACP is exactly what is not a tool event, in order |
| `Gateway.RunPipelineStep` | cmd/gateway/service.go:257-299 | The summary is the text of the tokens up to where the step ended; without an error it reached its Done event exactly if that event got through before the channel was closed, and always if nobody cancels |
| `Gateway.CancelledStepLooksGood` | cmd/gateway/service.go:285-288 | A step cancelled at once: no error and no text, though its run says something and ends in Done |
| `Gateway.GoodStepSaysAll` | cmd/gateway/service.go:280-298 | A step that ended without error says all the tokens of its first attempt, or, if its channel was closed, those of an initial part |
| `Gateway.RunSteps` | cmd/gateway/service.go:98-138 | Each step runs on a prompt made from the summaries before it; only the last may have failed, and its error is the response's |
| `Gateway.PromptHoldsLines` | cmd/gateway/service.go:100-117 | A prompt is the task, headed by the role if there is one, and one line for each dependency in the order listed, with its id and what it said |
| `Gateway.TextHoldsTokens` | cmd/gateway/service.go:280-298 | A step's text is that of exactly its token events, in order |
| `Gateway.QuotedStepsRanWell` | cmd/gateway/service.go:105-117 | Each quoted dependency ran earlier without error and is quoted with its own summary |
| `Gateway.RunPipeline` | cmd/gateway/service.go:76-139 | Refused exactly for a blank, unparsable or unorderable spec; otherwise the least order up to the first failure, with the defaults for user and trace id |
| `Gateway.Topic.WorkerTurn` | internal/queue/pubsub.go:56-111 | Events reach a subscriber in publishing order and only from its subscription on |
| `ControlPlane.AfterIsRest` | internal/controlplane/service.go:49-62 | Asking for what follows the last id seen yields exactly the unseen events |
| `ControlPlane.InterleavedAppendMissesEvent` | internal/controlplane/service.go:32-48 | Two appenders whose commands interleave: a reader in between gets the second event, and no later poll ever has the first |
| `ControlPlane.OneAppenderKeepsOrder` | internal/controlplane/service.go:32-48 | With one appender ids rise strictly in the list after every schedule, failed pushes included |
| `ControlPlane.AfterAnyNumber` | internal/controlplane/service.go:49-62 | Whatever number a reader asks with, it is answered as one that has seen the events up to that number |
| `ControlPlane.EventStore.Append` | internal/controlplane/service.go:32-48 | Ids rise strictly, also across failed appends |
| `ControlPlane.ConsumeRun` | internal/controlplane/service.go:238-279 | Records what arrives up to the first recorded terminal event, and finishes the run exactly once on every path: with all the text, as completed exactly after Done, and with an error exactly if no terminal event was recorded |
| `ControlPlane.CompleteRunIsRecorded` | internal/controlplane/service.go:252-299 | A complete trace is recorded as it is, and the run counts as completed exactly if it ended in Done, with all its text |
| `ControlPlane.RecordEndsOnce` | internal/controlplane/service.go:271-277 | A record has at most one terminal event, at its end |
| `ControlPlane.RecordedPicks` | internal/controlplane/service.go:269-271 | Recorded are exactly the events whose appends succeed, in order |
| `ControlPlane.KindsTell` | internal/controlplane/service.go:284-299 | Kinds tell the events apart, and a stored event ends the stream exactly if its data is terminal |
| `ControlPlane.ServeEvents` | internal/controlplane/http.go:220-255 | For any Last-Event-ID, one connection writes exactly the events with larger ids, up to a terminal one or to what the last poll saw |
| `ControlPlane.Browse` | internal/controlplane/http.go:220-255 | Over any polling schedule and any reconnects the browser gets the record from its start, each event once |
| `Pool.SlotsAreConserved` | internal/sandbox/memory.go:71-142 | Over every interleaving each slot ever warmed or spawned is in exactly one place, and pool, slots away, failed refills and slots given up add up to the warm count; before Close the rest is the warm count minus failed refills |
| `Pool.RefillNeverBlocks` | internal/sandbox/memory.go:137-141 | Whenever a new slot waits to be pushed, the pool has room |
| `Pool.NoTwoCallersShareSlot` | internal/sandbox/memory.go:81-110 | No slot is ever handed to two callers, whatever they do with their handles |
| `Pool.NoSlotReturns` | internal/sandbox/memory.go:125-142 | A slot that has left the pool never returns to it |
| `Pool.DoubleReleaseBlocksRefill` | internal/sandbox/memory.go:113-123 | Released twice, a handle makes a refill wait on a full pool: the single release is needed |
| `Pool.OwnersReleaseOnce` | internal/tool/runner.go:141-144 | It is enough that nobody releases more often than it acquired |
| `Pool.CountersBalance` | internal/sandbox/memory.go:145-157 | Spawned less destroyed is what exists, up to failed spawns in the memory driver and slots given up on Close |
| `Pool.RunKeepsInv` | internal/sandbox/docker.go:243-326 | The same invariant for both drivers, whose only difference is what the spawn counter counts |
| `Pool.FollowIsRun` | internal/sandbox/memory.go:81-142 | The steps of undisturbed calls make up a schedule of the protocol |
| `Pool.Driver.Acquire` | internal/sandbox/memory.go:81-110 | Each of its outcomes with its condition and the protocol steps it takes |
| `Pool.Driver.DestroyAndRefill` | internal/sandbox/docker.go:297-326 | The protocol steps it takes; it pushes without waiting because the slots are counted |
| `Pool.Driver.GetStats` | internal/sandbox/memory.go:145-157 | Counts the slots in flight first and the pool later: the sum fits the pool size exactly if the pool did not grow in between by more than the room there was |
| `Pool.StatsBound` | internal/sandbox/memory.go:145-157 | Over every interleaving the reported sum exceeds the pool size by at most the releases between the two reads |
| `Pool.StatsCanOverstate` | internal/sandbox/docker.go:329-341 | For both drivers, a schedule in which a slot is counted in flight and its refill in the pool |
| `Pool.Driver.Close` | internal/sandbox/memory.go:160-185 | With any moves of others before each look: the pool is once seen empty, and the memory driver ends without error exactly if nothing is in flight at its end, the Docker driver always; undisturbed it drains the whole pool |
| `Pool.ExecuteInWorkspace` | internal/tool/runner.go:71-214 | A handle that was acquired is released exactly once on every path; a denial comes back as an error with its reason, a broken hook or invocation as a failure, a patch with its own content and flag, and otherwise the invocation's own result |
| `Chunker.SplitLong` | internal/rag/chunker.go:83-109 | Terminates for maxChars at least 1 and overlap at most maxChars/2, and its pieces are the trimmed windows of the one tiling of the text |
| `Chunker.LayoutIsUnique` | internal/rag/chunker.go:50-81 | The kept paragraphs determine the layout: which are packed together and where long ones are cut |
| `Chunker.PackingIsUnique` | internal/rag/chunker.go:66-76 | Two greedy packings of the same paragraphs are the same |
| `Chunker.TilingIsUnique` | internal/rag/chunker.go:83-109 | The cutting rule determines the windows |
| `Chunker.TilingReassembles` | internal/rag/chunker.go:83-109 | Dropping each window's leading overlap gives back the text |
| `Chunker.WindowCountIsBounded` | internal/rag/chunker.go:83-109 | At most 1 + (n-1)/(maxChars/2 + 1 - overlap) windows |
| `Chunker.LargeOverlapStandsStill` | internal/rag/chunker.go:83-109 | For every overlap beyond maxChars/2 there is a text on which the start does not advance |
| `Chunker.PieceFits` | internal/rag/chunker.go:83-109 | Pieces fit, and are empty exactly if their window is blank |
| `Chunker.SplitText` | internal/rag/chunker.go:50-81 | The chunks are those of the one layout of exactly the kept paragraphs, in order: greedy groups and tiled long paragraphs; without overlap they say what the text says, character for character, white space apart |
| `Chunker.ChunksFit` | internal/rag/chunker.go:50-81 | No chunk is longer than maxChars |
| `Chunker.GreedyIsOptimal` | internal/rag/chunker.go:66-76 | Greedy packing uses the fewest groups of any order-preserving grouping that fits |
| `Chunker.PackedUsesFewestChunks` | internal/rag/chunker.go:50-81 | So do the chunks between two over-long paragraphs |
| `Chunker.SplitLosesNothing` | internal/rag/chunker.go:51-53 | Joining the paragraphs at blank lines gives back the text |
| `Chunker.SplitCutsEverywhere` | internal/rag/chunker.go:51-53 | No paragraph holds a blank line |
| `Chunker.SplitIsUnique` | internal/rag/chunker.go:51-53 | There is one way to cut a text at its blank lines from the front |
| `Chunker.KeptPicks` | internal/rag/chunker.go:61-65 | Kept are exactly the paragraphs that are not blank, trimmed, in order |
| `Chunker.ChunksLoseNothing` | internal/rag/chunker.go:50-81 | Without overlap no character but white space is lost, added or moved |
| `LlmStream.Assembler.Add` | internal/llm/openai.go:196-215 | The builders hold exactly what the fragments so far make up |
| `LlmStream.Assembler.BuiltToolCalls` | internal/llm/openai.go:294-313 | One call per index in order of first appearance, with the concatenated arguments and the last nonempty id, type and name |
| `LlmStream.OrderIsFirstAppearances` | internal/llm/openai.go:196-202 | The order lists each index once, exactly those that occur, and each before those that come up after it |
| `LlmStream.OnlyPicks` | internal/llm/openai.go:196-202 | The fragments of a call are exactly those with its index, in order |
| `LlmStream.BuilderHolds` | internal/llm/openai.go:203-215 | A call has the latest id, type and name that are not empty and all its arguments in order |
| `LlmStream.DataLinesCount` | internal/llm/openai.go:172-189 | A data line is the end mark or carries its decoded payload, whatever spaces surround it and however the line ends; blank and undecodable ones do not count |
| `LlmStream.ChoiceHolds` | internal/llm/openai.go:189-218 | A choice is its text unless empty, its fragments in order, its finish reason unless empty |
| `LlmStream.SwappingDoesNotMatter` | internal/llm/openai.go:196-215 | Swapping neighbouring fragments of different indices, once one of them has occurred, changes no call: interleaving does not matter |
| `LlmStream.CuttingDoesNotMatter` | internal/llm/openai.go:196-215 | Cutting a fragment in two changes no call |
| `LlmStream.OutInParts` | internal/llm/openai.go:190-242 | What is emitted: the content deltas up to the stop in order, the calls if the first finish reason asks for them, one terminal event |
| `LlmStream.OneTerminalEvent` | internal/llm/openai.go:181-242 | Exactly one terminal event, and it comes last |
| `LlmStream.Stream` | internal/llm/openai.go:165-243 | The reading loop emits exactly that, or an initial part of it once the context is cancelled |
| `LlmStream.RunnerHearsStream` | internal/llm/openai.go:165-243 | The runner hears the deltas and the assembled calls, and an error exactly if the body broke before anything stopped the stream |
| `Selector.NormalizeIsIdempotent` | internal/skill/selector.go:80-82 | A normalized query is its own normal form |
| `Selector.NormalizeKeepsLetters` | internal/skill/selector.go:80-82 | A normal form is the query in lower case, in words with one space between them |
| `Selector.SameNormalFormSameWords` | internal/skill/selector.go:80-82 | Two queries have the same normal form exactly if they have the same words, case apart |
| `Selector.RuleSelectorSelect` | internal/skill/selector.go:21-59 | Computes the ranked, cut-off list of skills that score |
| `Selector.ScoreSkill` | internal/skill/selector.go:61-78 | The accumulator loop computes the score |
| `Selector.ScoresExactlyIfFound` | internal/skill/selector.go:61-78 | A skill scores exactly if its name is in the query or a token is found in its name, description or content, under the length rules; its name in the query is worth 12 on top of its tokens |
| `Selector.PointsByPlace` | internal/skill/selector.go:65-76 | A token counts once, by the best place it is found in: 10 for the whole name, 6 for a part of it, 3 for the description, 1 for the content |
| `Selector.ContainsFinds` | internal/skill/selector.go:66-75 | Containment is an occurrence at some position |
| `Selector.Tokenize` | internal/skill/selector.go:84-105 | The tokens are, sorted and each once, exactly the trimmed parts of two characters or more |
| `Selector.PartsHoldAll` | internal/skill/selector.go:87-90 | The parts are runs, none empty, which together hold every letter, digit and dash in order |
| `Selector.DistinctHoldsTokensOnce` | internal/skill/selector.go:84-105 | The deduplicated list holds each token once and nothing else |
| `Selector.SelectsTheBest` | internal/skill/selector.go:41-58 | Nothing left out ranks before or scores more than anything returned, scores fall along the result, and nothing is left out unless the limit is reached |
| `Selector.RankRanks` | internal/skill/selector.go:41-49 | The stable sort ranks and loses nothing |
| `Selector.BeforeMeans` | internal/skill/selector.go:41-49 | Ranking is by score, highest first, then by name, then by path |
| `Selector.RankIsStable` | internal/skill/selector.go:41-49 | Skills ranked alike stay in the order of the index |
| `Selector.MatchesPick` | internal/skill/selector.go:33-40 | Ranked are exactly the skills that score, with their scores |
| `Selector.RuleSelectRespectsNormalForm` | internal/skill/selector.go:26-27 | The rule selector answers a query as it answers its normal form |
| `Selector.CachedSelector.Lookup` | internal/skill/selector.go:137-151 | Serves an entry exactly if it has not expired, and what it serves is the selector's answer |
| `Selector.CachedSelector.Store` | internal/skill/selector.go:158-168 | Keeps the answer and evicts down to the capacity |
| `Selector.CachedSelector.Select` | internal/skill/selector.go:125-170 | With any calls of others in between, returns what the selector behind returns |
| `Selector.CacheIsUnnoticed` | internal/skill/selector.go:125-188 | Over any sequence of calls, clocks and interleavings the answers are the uncached ones |
| `Selector.Evict` | internal/skill/selector.go:172-188 | Drops no more than it must, and only entries used no later than any that stays |
| `EndToEnd.WatchRun` | internal/controlplane/service.go:238-279 | Runner, gateway, control plane and browser together, with any failures around them: the browser gets an initial part of what was recorded of the first attempt's trace, all of it once a connection ends properly; with no append failing that is the trace, and the books say how it ended |
| `EndToEnd.RunAndResume` | internal/acp/session.go:131-186 | Dispatcher, session and resumes together: the client holds an initial part of the run's trace without tool events, each event once, and all of it after a full replay unless the session was killed; on the run's own wire exactly the terminal event is flagged END_STREAM |

## Left out

- Redis, Docker, gRPC, TCP, protobuf and JSON themselves: abstract sequences, sets, maps, FIFO channels and encoders.
- Delivery inside Redis Pub/Sub: an unbounded FIFO from the moment of subscription; client-library buffers are not modelled.
- Publishing failures: the runner's events are taken to be published; their errors are only logged in the source.
- Ids: generated history ids, event ids and slot ids are increasing numbers, not ULIDs or timestamps; 0 stands for the empty history id.
- Tags and parent ids of stored messages (`internal/agent/runner.go:287-309`): messages are stored with role and content only.
- Post-LLM hooks, and what a hook before a tool does to the call's arguments: they change neither the trace nor which handles are released.
- Elapsed times and time stamps in events; the clock appears only as the cache's `now`, and timeouts as steps that may happen.
- Claiming a crashed consumer's pending entries: the source never does, so such entries stay pending in the model too.
- Waiting and back-off of the consumers; a consumer that stops is one that takes no further step.
- Sequence numbers: scores are exact (the source converts them to 64-bit floats, exact up to 2^53), and a session refuses events at 2^64 where the source would wrap.
- Expiry of the event log, the replay list and the stream: nothing expires during a run.
- A send on the closed frame channel by an emitter that outlives `serve`: the dispatcher calls `emit` only while it runs.
- What the pool looks like when Close returns: a slot can be pushed after the drain, so only that it was seen empty once is claimed.
- Pool.Driver.GetStats: reads the spawn and destroy counters together with the pool, where the source reads them one after another.
- Default values of options (pool sizes, models, image names) and the container settings of a sandbox.
- Tool and hook execution, RAG retrieval and skill rendering: their results are arbitrary inputs of a run.
- Timeline truncation (`internal/agent/runner.go:645-651`) counts characters in the model and bytes in the source.
- `ParsePipeline` (`internal/orchestrator/pipeline.go:50-103`): pipelines come parsed.
- Case and letter tables of Unicode: arbitrary tables with the two properties the proof needs, idempotent lower-casing that leaves white space alone.
- `cacheKey`'s SHA-256: queries are keyed by their normal form.
- Agent management of the control plane, health checks and the HTTP routing: easy or plumbing.
- `internal/discovery`, `internal/scheduler`, `internal/obs`, `internal/rag/pg_store.go`, `web/`, configuration and the commands: left out as plumbing or because there is little to prove.
- Queue.HandlerRunsAreBounded: counts handler returns; a handler that a crash interrupts is not counted.
- Chunker.SplitLong: maxChars = 0 is excluded; the source's loop then never advances, and its callers pass a positive constant.
