# Verified model of the agent-protocol toolkit

A Dafny 4.11 model of the parts of this repository whose correctness depends on state carried
from one event, request or iteration to the next, with proofs that hold for every input, every
run and every interleaving. `dafny verify dfyconfig.toml` checks the whole project.

## What is modelled

**The bridge from ADK events to the AG-UI stream** (`aguiadk/bridge.go`). `Protocol` is a client
that receives a stream event by event, gives up on calls once an event of a call does not fit and
breaks on any other that does not; its counting lemmas say what an accepted stream is.
`Transcripts` computes, from the ADK events alone, what text, reasoning and calls a run contains.
`Translator` is the stateful translator, with its fields as fields; its methods are proved against
both: the fields always agree with what the client shows, and what the client holds is the
transcript. `Effects` names the effect of each part on the client's view; `Narratives` computes
what the view does not record: announcements, results, state deltas, activities and custom events.
`TranscriptLaws` and `NarrativeLaws` are what these promise. `CallLaws`, `AnswerLaws`, `Grounds`,
`Attribution` and `UsageLaws` say it once more in terms of the events alone: which arguments a call has, which call
a response answers, why something is said, for whom, and what a run is charged. `Bridge` adds the run around it: resuming, the turn limit, hand-back, pauses, the terminal event.

**Pausing and resuming** (`aguiadk/runstore.go`). `RunStores` is the bounded, expiring store;
`ResumeProtocol` interleaves any number of pauses, resumes, cleanups and clock ticks around it.

**The MCP loop** (`agui/mcp_middleware.go`, `agui/mcp_naming.go`): `McpMiddleware`, `Reconstruct`
and `ToolNaming`, for arbitrary inner agents and tools.

**Shared state** (`agui/state.go`, `agui/predictive.go`): `JsonPatch` is JSON Pointer and the
operations and atomicity of RFC 6902 (sections 4 and 5); `Locations` is what a patch leaves alone;
`StateDiff` and `Predictive` are the diff, the state manager and the prediction namespace.

**Model adapters** (`model/anthropic`, `model/openai`): `AnthropicStream`, `OpenAIStream`,
`ResponsesInput` and `StrictSchema`.

**Evaluation, usage, artifacts**: `GreedyMatching`, `FirstFitLimits`, `Trajectory`, `Rouge`, `TokenUsage` and
`ArtifactStore`. `Events`, `Adk`, `Decimals`, `SortedNames` and `StreamEnds` are shared vocabulary.

Objects that methods update in place are classes, loops are loops, Go maps are iterated in an
arbitrary order. Times, identifiers, the runner's stream, tool results, decoded JSON texts, the
alphabet of words and the outcome of external services are parameters.

## What the proofs brought to light

Each of these is shown by an input or by a statement for all inputs, and the condition under which
the code is right is exact.

- A resume executes the run it peeked at, not the run it claimed. When the continued run pauses
  again under the same key in between, a pending call is executed twice and the new pause is lost
  (`ResumeProtocol.ExecutedTwice`, `ResumeProtocol.ExecutesWhatItClaimed`).
- A streamed call finished twice, or after a sub-agent error closed it, leaves the protocol
  (`TranscriptLaws.UndisciplinedExamples`, `TranscriptLaws.DisciplinedExactly`); only the calls
  suffer from it (`Bridge.BridgeAgent.RunInternal`, `Protocol.RestingBrackets`).
- A failing prediction empties the namespace, although the comment on `PredictiveDelta` says that
  existing predictions are preserved (`Predictive.FailedPredictionResets`,
  `Predictive.EarlierPredictionKept`), and predictions with odd paths reach committed state
  (`Predictive.DisturbsExactly`).
- `anyOf` written by the converter of response schemas is an array of typed maps, which the strict
  rewriting does not visit (`StrictSchema.AlternativesAreMissed`, `StrictSchema.StrictEverywhere`).
- A function response that names its call leaves it pending, and the next unnamed response is
  paired with it again (`ResponsesInput.NamedAnswerIsRepeated`, `ResponsesInput.AnsweredOnce`).
- A tool name can take two tries more than there are names in use, not one
  (`ToolNaming.ThirdTryWithOneName`, `ToolNaming.OneMoreTryExactly`).
- A call with an empty identifier is executed again in every round (`McpMiddleware.ExecutedTwice`,
  `McpMiddleware.ExecutedAgainExactly`), and an unfinished call takes over an earlier message's
  text (`Reconstruct.UnfinishedCallAfterText`, `Reconstruct.UnfinishedCallTakesOldText`).
- The text `<nil>` compares equal to null, in one direction, so first fit can miss a matching
  (`Trajectory.NilTextMisleads`, `Trajectory.FirstFitIsRight`).
- A user, session or file named by a single dot passes validation and drops out of the path, so an
  artifact of the session `.` can hold all the artifacts of another session
  (`ArtifactStore.DotSessionNests`, `ArtifactStore.NestedExactly`) or lists a name that is none
  (`ArtifactStore.DotSessionLists`); binaries named `metadata.json` or of type `text/plain` do not
  come back (`ArtifactStore.RoundTrip`).
- Keys with a slash or a tilde escape break a diff (`StateDiff.AddedKeyExact`,
  `StateDiff.StateManager.Diff`), run keys collide when an identifier has the separator
  (`RunStores.RunKeyUnique`), and texts that differ can score a full 1 (`Rouge.LongTextsScoreOne`,
  `Rouge.RoundedRange`).
- The stream drops empty text blocks and signatures that come in deltas, and keeps cache counters
  that the unstreamed translation treats otherwise (`AnthropicStream.StreamAgreesWithTranslation`),
  and calls with malformed arguments vanish (`OpenAIStream.UndecodableCallsAreDropped`).

## Model

| member | source | states |
|---|---|---|
| `Translator.EventTranslator.constructor` | aguiadk/bridge.go:970-999 | a new translator has nothing open, so the client that has received its stream so far is idle |
| `Translator.EventTranslator.Translate` | aguiadk/bridge.go:1000-1152 | one ADK event, of any kind, keeps the translator's fields in step with what a protocol client shows, extends the content the client holds by exactly the event's transcript, calls without a supplied identifier included under the ones drawn for them, bills the event's usage once, and says exactly the announcements, results, state deltas, activities and custom events of the event, with its attribution |
| `Translator.EventTranslator.TranslateHeader` | aguiadk/bridge.go:1008-1054 | attribution, state delta and steps leave the content alone and give the client exactly the step and sub-agent the event calls for |
| `Translator.EventTranslator.TranslateContent` | aguiadk/bridge.go:1056-1152 | a sub-agent's model error closes every stream, ends that sub-agent with the error and drops the parts; a root error is reported and the parts are still translated, with exactly what they say |
| `Translator.EventTranslator.TranslateParts` | aguiadk/bridge.go:1089-1152 | the parts, absent ones skipped, are told in order after the citation and grounding metadata, each saying exactly what it says given what came before |
| `Translator.EventTranslator.TranslatePart` | aguiadk/bridge.go:1106-1151 | reasoning comes before tools and tools before text; a tool part closes open text and reasoning first; announcements, results and custom events carry exactly the part's names, identifiers and contents, and every call its own arguments |
| `Translator.EventTranslator.EmitText` | aguiadk/bridge.go:1232-1269 | reasoning is closed first, a message is opened once with a new identifier and the author's name, and the sent deltas add up to the accumulated text |
| `Translator.EventTranslator.EmitThought` | aguiadk/bridge.go:1617-1658 | text is closed first, and the reasoning block receives deltas adding up to the accumulated thought, with its signature inside the block |
| `Translator.EventTranslator.CloseOpenMessage` | aguiadk/bridge.go:1274-1304 | open text and open reasoning each end exactly once, with what was streamed |
| `Translator.EventTranslator.CloseStreamedToolCalls` | aguiadk/bridge.go:1310-1316 | in whatever order the map yields them, every open call ends exactly once with what was streamed, and none stays open |
| `Translator.EventTranslator.EmitFunctionCall` | aguiadk/bridge.go:1334-1475 | a call is suppressed into a state delta, noted as a server-side activity, rejected with an error result or proposed; a proposed call's arguments are all its fragments or the one full text, never both, with progress activities where wanted, and a call that was closed cannot be reopened or closed again |
| `Translator.EventTranslator.ProposeCall` | aguiadk/bridge.go:1403-1475 | a call is announced on first sight only, and its identifier and name are recorded for its result |
| `Translator.EventTranslator.StreamFragments` | aguiadk/bridge.go:1428-1443 | the non-empty fragments are sent in order and add up |
| `Translator.EventTranslator.FinishStreamedCall` | aguiadk/bridge.go:1447-1466 | the full arguments are sent only if no fragment was, and the call is no longer open |
| `Translator.EventTranslator.EmitResponse` | aguiadk/bridge.go:1502-1521 | a response whose identifier is recorded ends the output with the result, under that call, with its own content; otherwise it goes to the call recorded under the tool's name; one with neither emits nothing; a result comes after the activity of its call's tool |
| `Translator.EventTranslator.EmitBuiltinToolCall` | aguiadk/bridge.go:1526-1566 | a built-in call is noted as a server-side activity or shown whole with its arguments under its own or the next drawn identifier; under the identifier of a call still streaming the client loses track of the calls |
| `Translator.EventTranslator.MaybeEmitSubagentLifecycle` | aguiadk/bridge.go:1160-1188 | an author switch ends the active sub-agent and starts the new one, the root ends it, and the same author changes nothing |
| `Attribution.EventAttributed` | aguiadk/bridge.go:1160-1188 | whatever an event says is said for the agent that acts in it: none for the root and the canonical roles, the one that acted before for the same author, and a new one, announced before everything else, for any other; it acts on for the same author unless it failed |
| `Translator.EventTranslator.ManageSteps` | aguiadk/bridge.go:1022-1054 | tool results start an LLM step, final calls a tool step, and a first final event an LLM step, each after closing the open one |
| `Translator.EventTranslator.CloseAll` | aguiadk/bridge.go:1274-1316 | whatever was open is closed in the order message, calls, step, sub-agent, and then nothing is open at the client, whatever was translated before |
| `Transcripts.PartialCallHeard` | aguiadk/bridge.go:1428-1443 | what a client that reassembles the stream holds after a partial call is what the call's transcript says |
| `Transcripts.FinalCallHeard` | aguiadk/bridge.go:1447-1475 | what such a client holds after a final call is the call completed with its fragments, or else with its full arguments |
| `TranscriptLaws.StreamedContentExact` | aguiadk/bridge.go:1232-1269 | a streamed message or reasoning block ends up as the final text if and only if what was streamed before is a prefix of it |
| `TranscriptLaws.StreamingStylesAreExact` | aguiadk/bridge.go:1240-1262 | cumulative partials and fragments followed by the full text both meet that condition |
| `TranscriptLaws.WholeEventsSayTheirParts` | aguiadk/bridge.go:1106-1151 | without streaming a run says exactly its parts, in order: reasoning, text, and the texts that stand for files and binary data, and nothing for tool parts |
| `CallLaws.CallsComplete` | aguiadk/bridge.go:1403-1566 | the calls of a run that keeps the protocol are exactly those that some event or the end completes: a streamed call with all its fragments in order, or with the full arguments of its final event if there were none, any other with its own arguments |
| `AnswerLaws.ResponseReachesCall` | aguiadk/bridge.go:1502-1521 | whatever came before, what a response adds is one result for the latest call taken up with its identifier, failing that for the latest call of its tool, with its own content and after the activity of that call, and nothing when there is neither |
| `AnswerLaws.SuppliedCallIsAnswered` | aguiadk/bridge.go:1502-1521 | so if a call was supplied with the identifier and no later call has that identifier or a tool of that name, the result is for exactly that call |
| `Grounds.EveryRemarkHasItsEvent` | aguiadk/bridge.go:1000-1152 | nothing is said without its reason: every announcement, result, state delta, activity, custom event and signature of a run is called for, name by name and text by text, by some event of it |
| `Grounds.PartIsHeard` | aguiadk/bridge.go:1106-1151 | and what a part has to say is said by its event, unless a sub-agent's model error drops the parts |
| `Grounds.CallSaid` | aguiadk/bridge.go:1334-1400 | a final call that is not proposed says the state operations it maps to, the activity of a tool kept from the client, or the error of a malformed call, under its own identifier |
| `Grounds.HeaderIsHeard` | aguiadk/bridge.go:1008-1020 | a new author's sub-agent is announced, and a state delta replaces exactly its keys |
| `Grounds.ErrorIsHeard` | aguiadk/bridge.go:1056-1087 | a model error ends the sub-agent it happened in, or is reported with its code and message |
| `Grounds.MetadataIsHeard` | aguiadk/bridge.go:1094-1104 | citations and grounding are said, but only with parts |
| `Effects.StepMeans` | aguiadk/bridge.go:1022-1054 | tool results lead back to the model, complete calls to the tools, and a complete event without either starts a model step only if no step is shown |
| `NarrativeLaws.DrawnOnce` | aguiadk/bridge.go:1000-1658 | over any events, messages, activities and sub-agents get identifiers of their own, in increasing order |
| `NarrativeLaws.EventsSound` | aguiadk/bridge.go:1334-1566 | when no tools are kept from the client, then whatever the events, every result of a call is said after the call was announced |
| `NarrativeLaws.AnsweredMeans` | aguiadk/bridge.go:1502-1521 | that is, before each result there is a TOOL_CALL_START of its call |
| `TranscriptLaws.DisciplinedExactly` | aguiadk/bridge.go:1310-1475 | events can be streamed within the protocol if and only if no call that was streamed and then closed, by a final event or by a sub-agent's error, gets another final event or more text, and no built-in call takes the identifier of a call still streaming |
| `TranscriptLaws.OrdinaryIsDisciplined` | aguiadk/bridge.go:1403-1475 | in particular partials followed by at most one final event per call, as long as no call goes on after a sub-agent's error cut it off and built-in calls bring identifiers of their own |
| `TranscriptLaws.UndisciplinedExamples` | aguiadk/bridge.go:1447-1466 | a streamed call finished twice, or finished after a sub-agent error closed it, cannot |
| `Protocol.ConformsBrackets` | aguiadk/bridge.go:1214-1316 | an accepted stream brackets every message, reasoning block, call, step and sub-agent: opens and closes alternate, match at the end, and text and reasoning are never open together |
| `Protocol.RestingBrackets` | aguiadk/bridge.go:1214-1316 | a stream that leaves nothing open brackets messages, reasoning, steps and sub-agents in that way even if its calls do not fit the protocol |
| `Protocol.EndedShape` | aguiadk/bridge.go:367-423 | an ended stream is a lone RUN_ERROR, or starts with its only RUN_STARTED and ends with its only terminal event |
| `Bridge.BridgeAgent.RunInternal` | aguiadk/bridge.go:367-930 | every run ends with exactly one terminal event, with the aggregated usage; a session failure is a lone error; the last yield read decides what the run says last and whether it saves: an approval pause, an input pause, a hand-back, an auto-approved finish, a failure, the turn limit or the end of the stream, each with its status, requests, interrupts and snapshot; a pause saves the pending calls under the run's key and nothing else changes the store; whatever the events, nothing is left open at the client, who holds exactly the texts and the reasoning of their transcript; the whole stream is bracketed if and only if the events are disciplined, and then the client also holds exactly their calls; when no tools are kept from the client, no result comes before its call was announced; a refused run ends with the message of its refusal, and a resumed one hands the runner each pending call's answer, decided by its own entry, and the merged state |
| `Bridge.BridgeAgent.ProcessResume` | aguiadk/bridge.go:434-599 | only a resume that peeked, settled everything and claimed proceeds; then every pending call is reassembled by the client with its own arguments and answered, in the stream and to the runner alike, with its own arguments if and only if its last entry approves, with the denial otherwise, or with the payload of the first entry for the requested input; any other resume ends with the error naming the reason and emits nothing else, and one refused in validation leaves the store as it was |
| `Bridge.BridgeAgent.CheckResume` | aguiadk/bridge.go:449-522 | validation passes if and only if the entries settle everything pending, and otherwise names the requested input, no match at all, or the first undecided call |
| `Bridge.BridgeAgent.SettleAll` | aguiadk/bridge.go:479-595 | each pending call, in order, is shown again whole and gets one result, and its activity if and only if it was not denied; response and result of a call carry the same content |
| `Bridge.SettledAnswers` | aguiadk/bridge.go:577-593 | the runner gets one answer for each pending call, with its identifier and name: its own arguments if and only if the last entry for it approves, the denial otherwise, and the payload of the first entry for the requested input |
| `Bridge.SettledPieces` | aguiadk/bridge.go:548-575 | the client gets, call by call, the announcement, the activity unless the call was denied, and the result with that same answer |
| `Bridge.SettlesMeans` | aguiadk/bridge.go:449-533 | a resume settles a run if and only if some entry addresses the requested input or, without one, each pending call |
| `Bridge.ObjectionMeans` | aguiadk/bridge.go:523-533 | otherwise the refusal names the requested input, no match at all, or the first pending call that no entry addresses |
| `Bridge.BridgeAgent.Drive` | aguiadk/bridge.go:703-900 | the run stops at the first yield that must end it, for the one reason that yield gives, every event up to there is translated and none after it, whatever the runner yields, and what is told, said and billed is that of those events |
| `Bridge.CourseMeans` | aguiadk/bridge.go:703-900 | approval is asked for only if the last event read is long-running without requested input, under neither hand-back nor auto-approval; input is requested only without hand-back; hand-back and auto-approval finish the run; the stream is exhausted only if no event of it was long-running; and no earlier yield could have ended the run |
| `Bridge.CourseBoundsTurns` | aguiadk/bridge.go:722-742 | with a turn limit, at most one turn beyond it is translated, and the run fails to converge if and only if that happens |
| `Bridge.BridgeAgent.Finish` | aguiadk/bridge.go:703-930 | each stop emits exactly its status text, its approval requests and its messages snapshot, in its own order, and then the terminal event, and the paused run is saved exactly when the run pauses |
| `Bridge.SpokenMeans` | aguiadk/bridge.go:822-930 | so the yield at which the run stops, and the settings, decide its last words: their kind, their order, their interrupts and their outcome |
| `Bridge.SavesMeans` | aguiadk/bridge.go:844-900 | and whether the run is saved, with exactly the calls of that event that are long-running, or the store is left alone |
| `Bridge.ExtractPendingToolCalls` | aguiadk/bridge.go:1845-1870 | the pending calls are the event's function calls whose identifiers are long-running, in order |
| `Bridge.PendingMeans` | aguiadk/bridge.go:1845-1870 | they stand at increasing places among the parts, all that wait, each with its identifier, name and arguments |
| `Bridge.RunVerdict` | aguiadk/bridge.go:367-930 | the client of a closed run holds the words of the transcript, and is idle, with the calls of the transcript after those it already had, exactly for disciplined events |
| `RunStores.RunStore.constructor` | aguiadk/runstore.go:98-115 | non-positive limits select the defaults of 30 minutes and 1024 runs |
| `RunStores.RunStore.Save` | aguiadk/runstore.go:126-150 | expired entries go, then at most one oldest entry if the store is full of live ones and the key is not among them, and the run is stored under its key |
| `RunStores.RunStore.Load` | aguiadk/runstore.go:155-167 | a live entry is answered and kept, an expired one removed |
| `RunStores.RunStore.LoadAndDelete` | aguiadk/runstore.go:176-189 | the entry is removed whatever its age and answered if live |
| `RunStores.RunStore.PurgeExpired` | aguiadk/runstore.go:233-239 | exactly the entries younger than the limit remain, in whatever order they are visited |
| `RunStores.RunStore.EvictOldest` | aguiadk/runstore.go:241-253 | one entry goes and no other is older |
| `RunStores.StepKeepsBound` | aguiadk/runstore.go:126-239 | no operation outgrows the bound or answers an expired run |
| `RunStores.SaveEvictsOneOldest` | aguiadk/runstore.go:126-150 | a save stores its run and loses no entry younger than the limit, unless its key is new and there are as many of those as the store may hold: then exactly one, and no other of them is older |
| `RunStores.StoreHoldsLatestSave` | aguiadk/runstore.go:126-239 | over every history under a clock that never goes back, the store holds the latest save of a key unless it was claimed, deleted, evicted or expired |
| `RunStores.LookupAnswersLatestSave` | aguiadk/runstore.go:155-189 | a lookup answers a run if and only if it is the latest such save and younger than the limit |
| `RunStores.LatestSaveIsLast` | aguiadk/runstore.go:126-189 | nothing since the latest save saved, claimed, deleted or evicted the key |
| `RunStores.RunKeyUnique` | aguiadk/runstore.go:118-120 | a key names one run only if and only if neither identifier contains the separator |
| `RunStores.ApprovalsFromResume` | aguiadk/runstore.go:259-273 | the last entry for an interrupt decides: approval unless it is unresolved or says approved is false |
| `RunStores.DecisionMeans` | aguiadk/runstore.go:259-273 | an interrupt is decided if and only if some entry is for it, and then by the last such entry |
| `ResumeProtocol.ClaimedOnce` | aguiadk/runstore.go:169-189 | in every interleaving of pauses, resumes, cleanups and clock ticks each saved run is claimed by at most one resume |
| `ResumeProtocol.ExecutesWhatItClaimed` | aguiadk/bridge.go:438-533 | a resume executes the run it claimed if and only if no pause saved its key again between its peek and its claim |
| `ResumeProtocol.ExecutedOnce` | aguiadk/bridge.go:438-533 | without such a pause no saved run is executed twice |
| `ResumeProtocol.ExecutedTwice` | aguiadk/bridge.go:438-533 | with such a pause a run is executed twice and the new pause never: the code executes what it peeked at, not what it claimed |
| `ResumeProtocol.AttemptHistory` | aguiadk/bridge.go:438-533 | every resume that executes peeked, later claimed, and counts as overtaken exactly when a pause of its key lies in between |
| `ResumeProtocol.RejectionLeavesStore` | aguiadk/bridge.go:438-522 | a successful peek and a validation leave the store as it was, so that a rejected resume can be retried |
| `McpMiddleware.McpLoop.RunLoop` | agui/mcp_middleware.go:126-312 | the run is a chain of turns, each starting with the history and the stream the one before left, up to one that does not lead on; each turn passes on its inner run place by place and executes each of its open MCP calls with that call's own result; at most one RUN_STARTED, nothing after a terminal event, at most maxIterations rounds and one more inner run |
| `McpMiddleware.McpLoop.RunTurn` | agui/mcp_middleware.go:156-311 | one turn forwards the inner run, rebuilds the history, executes exactly the open MCP calls, answers each with one result event and message, and then hands off, finishes or continues |
| `McpMiddleware.McpLoop.RunInner` | agui/mcp_middleware.go:157-197 | everything is forwarded but a repeated RUN_STARTED and the RUN_FINISHED, which is held back; an error is forwarded and ends the run |
| `McpMiddleware.McpLoop.FollowUp` | agui/mcp_middleware.go:199-311 | without open MCP calls or beyond the iteration limit the held RUN_FINISHED is passed on and the run ends |
| `McpMiddleware.McpLoop.Answer` | agui/mcp_middleware.go:236-311 | open calls of other tools after the round hand the run off with its RUN_FINISHED; otherwise the answered history is the agent's next input |
| `McpMiddleware.McpLoop.Execute` | agui/mcp_middleware.go:236-278 | there are as many result events and messages as calls, and the k-th of each answers the k-th call with what that call returned, under an identifier of its own; no identified MCP call stays open |
| `McpMiddleware.StreamRelays` | agui/mcp_middleware.go:157-197 | of an inner run every event is passed on, once and in order, but later RUN_STARTED events, the RUN_FINISHED events and what follows an error; the last RUN_FINISHED is held back |
| `McpMiddleware.McpLoop.TurnMeans` | agui/mcp_middleware.go:156-311 | what the client receives in a turn is what its inner run passed on and then its error, its RUN_FINISHED, or the results of the open MCP calls, one for each |
| `McpMiddleware.GetOpenToolCalls` | agui/mcp_middleware.go:408-428 | two scans compute the open calls in order |
| `McpMiddleware.OpenMeans` | agui/mcp_middleware.go:408-428 | a call is open if and only if an assistant message made it and no message answers its identifier; an empty identifier is never answered |
| `McpMiddleware.McpInOrder` | agui/mcp_middleware.go:199-211 | the calls of a round are executed in the order of the messages that made them |
| `McpMiddleware.McpInMessage` | agui/mcp_middleware.go:199-211 | and those of one message in the order they have in it |
| `McpMiddleware.RoundExecutesOnce` | agui/mcp_middleware.go:205-211 | with distinct identifiers no call is executed twice within a round |
| `McpMiddleware.ExecutedInOneRound` | agui/mcp_middleware.go:156-311 | no identified call is executed in two rounds of a run |
| `McpMiddleware.ReinvokedWithoutOpenCalls` | agui/mcp_middleware.go:280-311 | without empty identifiers the agent is invoked again only on histories without open calls |
| `McpMiddleware.ExecutedAgainExactly` | agui/mcp_middleware.go:156-311 | a call of one round is executed in a later round, and so in every later one, if and only if its identifier is empty |
| `McpMiddleware.ExecutedTwice` | agui/mcp_middleware.go:409-424 | for example an agent that called a tool without an identifier and then says nothing has it executed round by round |
| `McpMiddleware.RoundClosesMcp` | agui/mcp_middleware.go:262-283 | a round opens nothing and closes every identified MCP call |
| `McpMiddleware.HistoriesGrow` | agui/mcp_middleware.go:199-311 | every input of the agent extends the original history |
| `Reconstruct.ReconstructMessages` | agui/mcp_middleware.go:322-404 | the loop over the events computes the event-by-event reconstruction |
| `Reconstruct.RebuildInvertsRender` | agui/mcp_middleware.go:322-404 | rendering any text messages, single calls and results as bracketed events, split in any way, and rebuilding them returns the original history followed by exactly those messages; a call without a parent message, which is how this repository announces every call, comes back under a message with the next generated identifier |
| `Reconstruct.OthersIgnored` | agui/mcp_middleware.go:329-393 | events of other kinds may be interleaved anywhere |
| `Reconstruct.HistoryKept` | agui/mcp_middleware.go:322-404 | the original history is a prefix of the rebuilt one |
| `Reconstruct.UnfinishedCallTakesOldText` | agui/mcp_middleware.go:395-401 | after any rendered messages, a call with or without a parent whose end never arrives is rebuilt without content if and only if the last text message said nothing, and otherwise takes over what it said |
| `Reconstruct.UnfinishedCallAfterText` | agui/mcp_middleware.go:395-401 | for example after one finished text message |
| `StateDiff.DiffMaps` | agui/state.go:123-154 | for any map order there is exactly one operation for each location that differs, an addition of what is missing, a removal of what is not wanted or a replacement, with the wanted value; the patch is empty if and only if nothing changed, and if the keys on those paths are plain the patch, applied to any document holding the old object at the prefix, puts the new one there and changes nothing else |
| `StateDiff.AddedKeyExact` | agui/state.go:126-130 | adding one key by its path gives the new object if and only if the key has no slash and no tilde escape |
| `StateDiff.StateManager.Apply` | agui/state.go:76-105 | a patch applies as a whole or leaves the state, except that replacing the document by something else than an object empties it, and fails unless that is null |
| `StateDiff.StateManager.Diff` | agui/state.go:108-120 | applying the diff to the state yields the target if and only if all keys on the paths of the diff are plain |
| `StateDiff.UnplainDiffFails` | agui/state.go:126-146 | a diff with another key on one of its paths never yields the target, because some location that has to change is left alone by every operation |
| `Locations.SwapLeavesOthers` | agui/state.go:123-154 | what is neither above nor below the changed location stays |
| `Locations.PatchSpares` | agui/state.go:76-105 | a patch that applies leaves every location that its operations do not reach or shift |
| `JsonPatch.AppendKey` | agui/state.go:126-127 | appending a key to a pointer names that key if and only if it is plain |
| `JsonPatch.ItemMeans` | agui/state.go:76-105 | an item put into an array moves the later ones up, a dropped one lets them move down, and only existing items are swapped or dropped |
| `JsonPatch.EditMeans` | agui/state.go:76-105 | only what is there can be replaced or removed, and what was put or replaced is then read back |
| `JsonPatch.CopyMeans` | agui/state.go:76-105 | a copy needs its source, and its value then stands at the target |
| `JsonPatch.MoveMeans` | agui/state.go:76-105 | so does a move, which never goes below its own source |
| `Predictive.PredictiveStateTracker.PredictiveDelta` | agui/predictive.go:47-74 | a prediction is applied under the namespace, retried once from an empty namespace, and emitted only if it succeeded |
| `Predictive.PredictiveStateTracker.Commit` | agui/predictive.go:85-105 | a commit is applied as an add, failing that with nested parents, and emitted with its own path only if it succeeded |
| `Predictive.PredictiveStateTracker.Clear` | agui/predictive.go:177-188 | the namespace is removed if it exists, and the removal emitted either way |
| `Predictive.SplitPath` | agui/predictive.go:157-172 | the segments are the non-empty parts between slashes |
| `Predictive.BuildNestedValue` | agui/predictive.go:142-155 | the value is nested under the segments, outermost first |
| `Predictive.EnsureParentPath` | agui/predictive.go:110-138 | only a deep add is rewritten, to an add of the nested rest under its first segment |
| `Predictive.PredictionHidden` | agui/predictive.go:47-74 | a prediction, successful, failed or retried, leaves everything outside its namespace alone |
| `Predictive.PredictionMeans` | agui/predictive.go:47-74 | a prediction with paths of its own leaves in the namespace the patch applied to what was there, failing that the patch applied to an empty namespace, failing that an empty namespace |
| `Predictive.CommitIgnoresPredictions` | agui/predictive.go:85-105 | what a commit does outside the namespace does not depend on what is predicted |
| `Predictive.PredictionsAreInvisible` | agui/predictive.go:47-188 | after any run of predictions, commits and clears the visible state is that of the commits alone |
| `Predictive.TrackerPredictionsAreInvisible` | agui/predictive.go:14-21 | so it is for the tracker's own namespace |
| `Predictive.CommitIsReadBack` | agui/predictive.go:85-155 | a commit to a canonical object path succeeds, is read back, and leaves the other top-level keys |
| `Predictive.CommitKeepsSiblings` | agui/predictive.go:76-105 | where the parent of its path can take the value a commit touches nothing beside the path, and otherwise the rest of the path replaces whatever its first key held |
| `Predictive.EarlierPredictionKept` | agui/predictive.go:45-68 | an earlier prediction at a location that a patch spares is kept if and only if the patch applies directly; a failing one starts over from an empty namespace |
| `Predictive.FailedPredictionResets` | agui/predictive.go:54-68 | for example removing what is not there loses an earlier draft and fails all the same |
| `Predictive.DisturbsExactly` | agui/predictive.go:190-209 | exactly which predicted operations can disturb the committed state: additions, removals and replacements whose path lacks the slash; moves to a slashed path from the single slash or from a path without one; moves to another path that do not start at or above it; and copies to such a path, except of a field onto itself |
| `Predictive.UnslashedPathEscapes` | agui/predictive.go:197-201 | for example an addition whose path lacks the slash lands beside the namespace |
| `Predictive.MoveFromEmptyKeyDisturbs` | agui/predictive.go:202-206 | for example a move from the path of a single slash removes committed state |
| `GreedyMatching.CompareExact` | eval/trajectory_evaluator.go:109-119 | 1 if and only if the sequences have equal lengths and match item by item |
| `GreedyMatching.CompareInOrder` | eval/trajectory_evaluator.go:123-137 | 1 if and only if the expected calls are a subsequence of the actual ones, for any comparison |
| `GreedyMatching.CompareAnyOrder` | eval/trajectory_evaluator.go:141-160 | first fit exactly; a score of 1 gives an injective matching, and where the comparison is equality it is 1 if and only if the expected calls are included as a multiset |
| `GreedyMatching.AnyOrderIsInclusion` | eval/trajectory_evaluator.go:141-160 | under equality an injective matching exists if and only if the expected calls are included as a multiset |
| `FirstFitLimits.FirstFitExactly` | eval/trajectory_evaluator.go:141-160 | for any comparison, first fit is right about every list of actual calls if and only if of any two expected calls nothing matches both or whatever matches the earlier matches the later, or else nothing matches one of them |
| `Trajectory.FirstFitIsRight` | eval/trajectory_evaluator.go:141-220 | for calls, first fit is right about every list if and only if of two expected calls that differ only in where a text stands for null the later accepts the earlier |
| `GreedyMatching.ExactImpliesInOrder` | eval/trajectory_evaluator.go:107-137 | an exact match is an in-order match |
| `GreedyMatching.InOrderImpliesAnyOrder` | eval/trajectory_evaluator.go:121-160 | an in-order match is an any-order match |
| `Trajectory.CompareToolCalls` | eval/trajectory_evaluator.go:87-105 | no expected calls means none may be made; otherwise the match type decides, in any order by an injective matching if the expected calls are compatible |
| `Trajectory.EqualityExact` | eval/trajectory_evaluator.go:172-220 | comparing with a value is structural equality if and only if no text in it reads like a printed null |
| `Trajectory.CallsEqualExact` | eval/trajectory_evaluator.go:164-186 | calls compare equal exactly when they are, arguments checked by count and a one-way scan |
| `Trajectory.NilTextMisleads` | eval/trajectory_evaluator.go:217-219 | for example null and a text that reads like it, expected in the wrong order, make first fit miss a matching that exists, and the comparison is not symmetric |
| `AnthropicStream.ParseStream` | model/anthropic/stream.go:65-246 | each text delta of a block that has started is passed on as it comes, and nothing else before the end, which is the response of the blocks read, an interruption or an error, or nothing |
| `AnthropicStream.FinishedCompletes` | model/anthropic/stream.go:190-246 | the response has one part for each block that has one, in start order, each of its own events, and the last finish reason, token counts and cache counters read |
| `AnthropicStream.TextsSpoken` | model/anthropic/stream.go:128-147 | the partial responses are exactly the text deltas of started blocks, one by one |
| `AnthropicStream.StreamParser.Consume` | model/anthropic/stream.go:103-188 | each event has exactly its effect on the block it names, the order, the reason and the usage |
| `AnthropicStream.AssembleParts` | model/anthropic/stream.go:203-231 | the parts stand in block order, empty text and unknown blocks left out |
| `AnthropicStream.BlocksAreIndependent` | model/anthropic/stream.go:107-176 | each block holds what its own events make of it, whatever came in between |
| `AnthropicStream.InterleavingIsIrrelevant` | model/anthropic/stream.go:65-246 | streams that differ only in how the events of different blocks are interleaved end in the same response |
| `AnthropicStream.OrderIsStartOrder` | model/anthropic/stream.go:125-126 | parts are listed in block-start order |
| `AnthropicStream.CompleteComesLast` | model/anthropic/stream.go:190-238 | everything before the last response is a partial text |
| `AnthropicStream.StreamAgreesWithTranslation` | model/anthropic/translate.go:346-394 | a regular stream ends with the response the unstreamed translation of the same message gives, with the same finish reason and token counts in any case, the same parts if and only if no text block is empty and no signature of a thinking block comes in deltas, and the same metadata if and only if the cache counters come together and one of them is positive, or not at all |
| `OpenAIStream.ParseStream` | model/openai/stream.go:99-241 | the n-th chunk gets the n-th reply, with the chunk's text, partial if and only if it has no finish reason; with one, the reply has, in first-seen order, exactly the calls whose arguments joined so far are empty or can be decoded, each with its own identifier, name and arguments, and the usage of the chunk; the end marker, an error, an interruption or the end of the input comes last |
| `OpenAIStream.ChunksAnswered` | model/openai/stream.go:131-220 | so it is chunk by chunk, whatever came before |
| `OpenAIStream.Accumulate` | model/openai/stream.go:151-180 | fragments are merged into the call of their index, a missing index reading as zero |
| `OpenAIStream.CallsAreIndependent` | model/openai/stream.go:151-180 | each call is made of its own fragments alone: the last non-empty identifier and name and all the arguments in order |
| `OpenAIStream.OrderIsFirstSeen` | model/openai/stream.go:157-164 | calls stand in the order their indices are first seen |
| `OpenAIStream.InterleavingIsIrrelevant` | model/openai/stream.go:151-180 | interleaving the fragments of different calls makes no difference |
| `OpenAIStream.UndecodableCallsAreDropped` | model/openai/tools.go:160-192 | the reported calls are exactly those whose arguments are empty or can be decoded, translated, in order |
| `OpenAIStream.CompletionComesLast` | model/openai/stream.go:131-135 | the turn is completed, interrupted or failed by the last response only |
| `ResponsesInput.ContentsToInputItems` | model/openai/responses.go:304-411 | the conversion with its tracker computes the part-by-part conversion, and the first failure is the outcome |
| `ResponsesInput.CallTracker.ResolveResponseCallID` | model/openai/responses.go:150-166 | a named pending call is answered and kept, an unnamed answer takes the oldest pending call, anything else fails |
| `ResponsesInput.HistoryIsFaithful` | model/openai/responses.go:131-411 | calls keep their identifiers or get the next generated one, a named answer goes to its call and the others to the calls in order, and every output follows its call |
| `ResponsesInput.ConvertsExactly` | model/openai/responses.go:150-411 | a history is converted if and only if no part is media, every call has a name, and every answer finds an open call, the one it names or the oldest; otherwise the error is that of the first part that fails |
| `ResponsesInput.PiecesKept` | model/openai/responses.go:321-411 | text, calls and outputs come in the order they were said, nothing lost or added, wherever messages are cut, the model's text as the assistant's output and everybody else's as input |
| `ResponsesInput.UnlabelledPairInOrder` | model/openai/responses.go:150-166 | when no answer carries an identifier the k-th output goes to the k-th call |
| `ResponsesInput.AnsweredOnce` | model/openai/responses.go:150-166 | distinct calls get at most one output each if and only if no name comes twice and none names a call an unnamed answer takes |
| `ResponsesInput.NamedAnswerIsRepeated` | model/openai/responses.go:151-157 | an answer that names the oldest pending call leaves it to the next unnamed answer |
| `ResponsesInput.GeneratedDiffer` | model/openai/responses.go:137-140 | generated call identifiers are pairwise distinct |
| `StrictSchema.Enforce` | model/openai/responses.go:634-686 | the rewriting, in any map order, computes the strict form, and ends |
| `StrictSchema.EveryNodeIsRewritten` | model/openai/responses.go:634-686 | along every path stands the rewriting of what stood there, or what stood there once the path has led through an array of typed maps |
| `StrictSchema.StrictIsCompliant` | model/openai/responses.go:634-686 | a rewritten schema is a bare reference, or closed with its sorted property names required if it is an object |
| `StrictSchema.StrictEverywhere` | model/openai/responses.go:652-661 | strict mode's demands are met everywhere if and only if they were already met wherever the schema leads through an array of typed maps |
| `StrictSchema.StrictIsIdempotent` | model/openai/responses.go:634-686 | rewriting twice is rewriting once |
| `StrictSchema.UnchangedWhenCompliant` | model/openai/responses.go:634-686 | a schema is left as it is if and only if every visited place in it already complies |
| `StrictSchema.AlternativesAreMissed` | model/openai/schema.go:53-72 | the converter of response schemas writes such arrays, so objects among its alternatives are not made strict |
| `SortedNames.SortedKeys` | model/openai/responses.go:678-684 | the names of a map, collected in any order, are listed in ascending order, each once |
| `ToolNaming.SanitizedIsClean` | agui/mcp_naming.go:16-20 | a sanitized segment has allowed characters only and no underscore at its ends, and clean segments are left alone |
| `ToolNaming.SanitizedIsCut` | agui/mcp_naming.go:16-20 | it is a stretch of the segment with underscores for what is not allowed, and only such characters and underscores are cut off around it |
| `ToolNaming.CandidateReads` | agui/mcp_naming.go:25-43 | a name reads mcp, the server and the tool, cut to 64 characters, and a later candidate ends in its number and is cut only as far as that needs room |
| `ToolNaming.MakeUniqueToolName` | agui/mcp_naming.go:25-43 | the name is valid, unused, and the first unused candidate, found within one try more than there are used names, or two if the base ends like one of its own suffixes |
| `ToolNaming.CandidatesDiffer` | agui/mcp_naming.go:33-40 | suffixed candidates are pairwise distinct, however the base is cut |
| `ToolNaming.OneMoreTryExactly` | agui/mcp_naming.go:33-40 | one try more than there are used names is enough for every set of used names if and only if the base does not have full length and end like a suffix |
| `ToolNaming.ThirdTryWithOneName` | agui/mcp_naming.go:25-40 | for example a tool name of 56 characters ending in an underscore and a two needs its third candidate although one name is in use |
| `ToolNaming.ResolveTools` | agui/mcp_middleware.go:95-112 | each listed tool gets its first candidate that is neither an existing name nor given to an earlier tool, so the names are valid, pairwise distinct and none of the existing ones |
| `TokenUsage.AggregateTokenUsage` | agui/token_usage.go:11-84 | the map and the order list compute the totals per key in order of first appearance |
| `TokenUsage.AggregationConserves` | agui/token_usage.go:11-84 | the aggregate has the same keys and the same total for every key |
| `TokenUsage.CounterReported` | agui/token_usage.go:32-51 | a counter is reported if and only if some entry of its key had it, and is then the sum of those |
| `UsageLaws.UsageOfRun` | aguiadk/bridge.go:1680-1720 | a run reports a counter of a model if and only if some complete event counted something, and then the sum of what its complete events counted |
| `TokenUsage.KeysDistinct` | agui/token_usage.go:22-31 | the keys are distinct and are those of the entries |
| `TokenUsage.AggregationIsModular` | agui/token_usage.go:11-84 | aggregating in two batches and then together is aggregating at once |
| `TokenUsage.RelabelledIsIdentity` | agui/token_usage.go:86-95 | provider and model come back from the key if and only if the provider has no NUL |
| `Rouge.Rouge1Score` | eval/rouge_evaluator.go:78-108 | the score is twice the shared tokens over all tokens, rounded, for every pair of texts |
| `Rouge.Tokenize` | eval/rouge_evaluator.go:111-130 | the scan computes the tokens |
| `Rouge.TokensSplit` | eval/rouge_evaluator.go:111-130 | any other character ends a token, and the text after it is read afresh |
| `Rouge.WordIsToken` | eval/rouge_evaluator.go:111-130 | a run of word characters is one token |
| `Rouge.TokensAreWords` | eval/rouge_evaluator.go:111-130 | tokens are non-empty and have word characters only |
| `Rouge.Overlap` | eval/rouge_evaluator.go:89-97 | in any map order the overlap is the size of the multiset intersection |
| `Rouge.IdealRange` | eval/rouge_evaluator.go:89-108 | the unrounded score lies in [0, 1] and is 1 if and only if the texts have the same tokens in any order |
| `Rouge.IdealIsHarmonicMean` | eval/rouge_evaluator.go:89-108 | the unrounded score is the harmonic mean of precision and recall |
| `Rouge.IdealIsSymmetric` | eval/rouge_evaluator.go:89-108 | the unrounded score is symmetric |
| `Rouge.RoundedRange` | eval/rouge_evaluator.go:107 | rounding stays in [0, 1], moves the score by at most 0.0005, and gives 1 if and only if it was at least 0.9995 |
| `Rouge.LongTextsScoreOne` | eval/rouge_evaluator.go:107 | so texts of a thousand tokens and one token more already score 1 |
| `ArtifactStore.Service.Save` | artifact/file/file.go:216-280 | as long as the directory of the artifact meets no other's, the part becomes the next version, numbered by how many there were, and no other artifact changes |
| `ArtifactStore.Service.Load` | artifact/file/file.go:293-366 | likewise version 0 answers the latest, any other number the part saved under it, an unknown one is not found |
| `ArtifactStore.Service.Delete` | artifact/file/file.go:372-390 | likewise all versions of that artifact go and nothing else |
| `ArtifactStore.Service.Versions` | artifact/file/file.go:457-480 | likewise the versions are 0, 1, 2 and so on without gaps, ascending |
| `ArtifactStore.Service.List` | artifact/file/file.go:400-432 | the names are those of the session's and of the user's artifacts, sorted, each once |
| `ArtifactStore.Service.ListVersions` | artifact/file/file.go:170-191 | the numeric directory names, as numbers, ascending |
| `ArtifactStore.SaveRepresents` | artifact/file/file.go:216-280 | after a save the files are exactly those of the stored versions with one more |
| `ArtifactStore.DeleteRepresents` | artifact/file/file.go:372-390 | after a delete the files are exactly those of the other artifacts |
| `ArtifactStore.RoundTrip` | artifact/file/file.go:216-366 | a saved part is loaded again, as the latest or by a number later saves do not touch, if and only if it is text, or a binary neither named like the metadata nor of the text MIME type |
| `ArtifactStore.SameSlotExactly` | artifact/file/file.go:111-123 | two keys name one artifact if and only if they agree in user and file, and in the session unless the file is the user's own |
| `ArtifactStore.NestedExactly` | artifact/file/file.go:111-123 | the directory of any key whatever meets that of an artifact with proper names if and only if both are the same artifact or a user, session or file of the key is a single dot, which is dropped from its path, and what is left leads there |
| `ArtifactStore.DotSessionNests` | artifact/file/file.go:111-166 | for example a file of the session named by a single dot takes the place of all the artifacts of another session, and deleting it deletes them all |
| `ArtifactStore.DotSessionLists` | artifact/file/file.go:400-432 | listing the session named by a single dot reports the name `artifacts` once the session `artifacts` has an artifact, whether or not it has one of that name itself |
| `ArtifactStore.PlainFits` | artifact/file/file.go:111-123 | artifacts with proper names never meet |

## Left out

- HTTP, SSE framing, MCP transport, keep-alive, CORS, the client agent: input and output; tools and the inner agent are arbitrary functions here.
- Channels, cancellation and panic recovery in `Run`, and errors of the emitter: emission is appending to a trace, a disconnect only cuts it off.
- `CustomEventEmitter` and the client toolset: code of the caller that may emit anything.
- The ADK runner, the session service and `SessionManager`: their answers are parameters of a run; message conversion and the contents of snapshots are not modelled.
- Wording of interrupts, run identifiers on errors, schemas carried by interrupts and the state nested in session events: copied through, not decided by the modelled code.
- Request options built from the envelope (parent run, context, forwarded properties): plumbing.
- JSON, regular expressions, lower-casing and the letter classes: encoded texts and functions given from outside; a text that cannot be encoded or decoded is a separate case.
- Differences between the patch library and RFC 6902, such as how it treats a patch of the whole document: the operations are those of the RFC.
- Shallow copies in the store: a run's arguments and state are values, so later changes by the caller through shared maps do not show.
- 64-bit overflow of token sums, version numbers and identifier counters, and rounding of binary floating point: integers and reals are exact.
- StrictSchema.Enforce: works on schema values, so one map shared between two places of a schema, and its update in place, are not captured.
- StateDiff.DiffMaps: says which operations there are and what they do, not in which order they come, which the code leaves to its maps.
- GreedyMatching.CompareAnyOrder: where the comparison is not equality its score is first fit's; `FirstFitLimits.FirstFitExactly` says when that is whether a matching exists.
- AnthropicStream.StreamAgreesWithTranslation: the compared message has no tool input besides the deltas.
- Predictive.PredictionsAreInvisible: commits to the whole document are outside, and predictions must use paths that start with a slash and must not move from the single slash; `Predictive.DisturbsExactly` says exactly why.
- Predictive.CommitIsReadBack: canonical paths of object keys; what a client makes of the emitted path after the fallback is not promised by the code.
- ArtifactStore.Service.Save: promises nothing for a file named by a single dot, because a failing save leaves an empty directory behind and the model has none; input and output errors and files put there by others are not modelled, nor is creation time. Validation inside the ADK is not part of this model beyond what the comments of the service say about it.
- ArtifactStore.Service.List: promises nothing once users, sessions or files are named by a single dot; `ArtifactStore.DotSessionLists` shows that its answer is then wrong.
- TokenUsage.AggregationConserves: usage entries whose provider holds a NUL are merged under another label, as `TokenUsage.RelabelledIsIdentity` says.
- Rouge.Rouge1Score: unigrams only, which is all the evaluator uses.
- Retention by aging against wall-clock adjustments: the clock of a history never goes back.
- Configuration, prompts, planners, judge-based evaluators, simulation, presets, capabilities, the tool-result handler and the MCP apps middleware: field copying, or smaller versions of what is modelled.
