# Luna chat agent: a Dafny model of its core

This project models the core of a chat assistant with two agent modes, in
Dafny, and proves properties of that model.

- **The agent graphs (lib/langgraph.ts).**
  - The routing of the simple tool-calling graph (`shouldContinue`).
  - The fixed pipeline of the deep research graph.
  - The bounded tool loop each researcher runs (`executeResearchTask`).
  - The extraction of the research plan from the planner's reply.
  - The fan-out over research tasks (`parallel_research`) and the findings text of the report.
  - The prompt-caching breakpoints `addCachingHeaders` sets on the shared message objects, and `submitQuestion`.
- **The chat stream route (app/api/chat/stream/route.ts).**
  - `sendSSEMessage`'s framing.
  - `startStream`, which writes `Connected`, translates every agent event into stream messages and ends with exactly one `Done` or `Error`.
- **The browser's stream parser (lib/createSSEParser.ts).**
  - Its line buffer and the classification of `data:` lines.
  - The round trip: whatever the route writes, however the decoded text is cut into chunks, parses back to exactly the messages sent.
- **The message renderer's `parseMessage` (components/MessageBubble.tsx).**
  - The cleanup of escapes and marker lines.
  - The scan for fenced code blocks, with a greedy tag and a lazy body.
  - The trimmed, non-empty segments it returns.
- **The chat title action `generateChatTitle` (convex/actions.ts).**
  - The context shown to the title model.
  - The cleaning of its reply.
  - The "New Chat" fallbacks.

The language model, the tools, `JSON.parse`/`JSON.stringify` and the
database are function parameters. The agent's event stream is a sequence of
events. What the route writes is the sequence of messages handed to
`sendSSEMessage`.

Modules, one per file:
- `Wrappers`: Option and the thrown-value type.
- `JsText`: the JavaScript string operations used: `trim`, `split("\n")`, `join`, `slice` and `indexOf`.
- `StreamProtocol`: the stream messages and their framing constants.
- `ChatStreamRoute`: the route.
- `SseParser`: the browser's parser.
- `WireRoundTrip`: the two ends of the stream together.
- `LangGraph`: the agent graphs.
- `PromptCaching`: `addCachingHeaders`, `submitQuestion` and the message objects the route builds.
- `MessageBubble`: `parseMessage`.
- `ChatTitle`: the title action.

## Model

| member | source | states |
|---|---|---|
| LangGraph.ShouldContinue | lib/langgraph.ts:114-124 | routes to the tools exactly when the last message has tool calls, back to the agent exactly when it is a tool message with truthy content, and to END exactly when neither holds |
| LangGraph.AgentReplyRoutesToToolsOrEnd | lib/langgraph.ts:140-146 | after the agent node appends the model's reply, the simple graph goes to the tools exactly when the reply asked for tools and otherwise ends |
| LangGraph.DeepRunIsThePipeline | lib/langgraph.ts:430-434 | a deep research run visits clarify, brief, parallel research and report once each, in that order, then END |
| LangGraph.SelectWorkflow | lib/langgraph.ts:473-474 | the deep research graph is chosen exactly when the mode is "deep_research" |
| LangGraph.FindTool | lib/langgraph.ts:218 | the tool found is the first one in the list with the requested name; none is found exactly when no tool has that name |
| LangGraph.DispatchToolCalls | lib/langgraph.ts:208-245 | one round's tool messages are those of the reference `ToolResults`: calls without an id or a name, or naming no tool in the list, are skipped |
| LangGraph.ToolResultsFollowCalls | lib/langgraph.ts:212-242 | one tool message per answered call, in request order, each carrying its call's id and name and its tool's output |
| LangGraph.ThrowingToolIsReported | lib/langgraph.ts:225-229 | a tool that throws is reported to the model as text starting "Tool execution error: "; it does not propagate |
| LangGraph.ResearchIsBounded | lib/langgraph.ts:200-251 | a researcher runs at most ten tool rounds, and one that stops earlier stops at a response without tool calls |
| LangGraph.ToolHungryModelRunsTenRounds | lib/langgraph.ts:200-251 | a model that always asks for tools is stopped after exactly ten rounds |
| LangGraph.ResearchOnlyAppends | lib/langgraph.ts:204-251 | the conversation only grows, and each round puts the response before its tool results |
| LangGraph.RunResearcher | lib/langgraph.ts:197-255 | the loop's findings, conversation and round count equal those of the reference run `ResearchTaskRun` for the given lookup list |
| LangGraph.ExecuteResearchTask | lib/langgraph.ts:150-256 | `executeResearchTask` as written: its result is the run that looks tools up in the wxflows tools only |
| LangGraph.TavilyCallsSkippedAsWritten | lib/langgraph.ts:212-221 | as written, no `tavily_search` call of a round gets a tool message |
| LangGraph.TavilyOnlyRunGetsNoToolMessages | lib/langgraph.ts:204-251 | as written, a researcher whose model only asks for `tavily_search` gets no tool message in any round: each round adds only the response |
| LangGraph.ExecuteResearchTaskCorrected | lib/langgraph.ts:166-167 | the same task with tools looked up in every tool the model is bound to |
| LangGraph.TavilyCallsAnsweredWhenCorrected | lib/langgraph.ts:212-242 | with the corrected list, every `tavily_search` call with an id is answered by Tavily, in order |
| LangGraph.TavilyRunAnsweredWhenCorrected | lib/langgraph.ts:204-245 | with the corrected list, the first round puts a tool message right after the response that asked for it |
| LangGraph.PlanBlockReadsBack | lib/langgraph.ts:328-330 | a plan written between the markers, with no earlier start marker and no end marker inside it, is captured as the trimmed text between them |
| LangGraph.ExtractPlan | lib/langgraph.ts:326-344 | no marker pair gives no tasks; a parse error or `null` gives the single fallback task; otherwise the tasks are `planJson.tasks` when that is a list, and not a list otherwise |
| LangGraph.NoMarkerNoTasks | lib/langgraph.ts:331 | a brief without a start marker gives no tasks, not the fallback |
| LangGraph.ParallelResearchNode | lib/langgraph.ts:358-376 | a task list becomes a list of the same length and order, each task unchanged but for the findings it now carries; a non-array list makes the node fail |
| LangGraph.ResearchAll | lib/langgraph.ts:362-371 | the k-th task gets the findings of researching the k-th task |
| LangGraph.RenderTask | lib/langgraph.ts:383 | an entry starts with `## ` and the question, then a blank line |
| LangGraph.RenderTaskEndsWithFindings | lib/langgraph.ts:383 | an entry ends with the findings, or with "No findings recorded" exactly when they are missing or empty |
| LangGraph.ReportFindingsAppend | lib/langgraph.ts:381-385 | the findings text lists the tasks in order, separated by `\n\n---\n\n` |
| LangGraph.ResearchedEntriesCarryFindings | lib/langgraph.ts:358-385 | after the fan-out, an entry shows its researcher's findings whenever they are not empty |
| PromptCaching.SecondHumanFromEndIsSecondLast | lib/langgraph.ts:453-462 | the backward scan stops at the human message with exactly one later human message, and finds one exactly when there are two or more |
| PromptCaching.AddCachingHeaders | lib/langgraph.ts:439-464 | returns the same objects; the last message and the second human message from the end have their content wrapped in a cache block, and every other message is unchanged |
| PromptCaching.SubmitQuestion | lib/langgraph.ts:466-480 | the graph gets the caller's array, whose shared objects carry the breakpoints, and the deep graph is chosen exactly for "deep_research" |
| PromptCaching.BuildHistory | app/api/chat/stream/route.ts:63-70 | one new object per stored message, human for "user" and AI otherwise, with its content, then the new message as a human message |
| PromptCaching.BreakpointsOfBuiltHistory | app/api/chat/stream/route.ts:63-70 | on a history the route built, the breakpoints go on the new question and on the last "user" message before it |
| ChatStreamRoute.ModelStreamOutput | app/api/chat/stream/route.ts:86-99 | a model-stream event writes one token exactly when the first block's `text` is truthy, carrying that text |
| ChatStreamRoute.StreamChainItems | app/api/chat/stream/route.ts:117-152 | the chain-stream loop yields the reference texts `ChainStreamTexts` |
| ChatStreamRoute.ChainStreamTextsAreNotBlank | app/api/chat/stream/route.ts:139 | no chain-stream token is blank |
| ChatStreamRoute.FindFinalContent | app/api/chat/stream/route.ts:175-209 | the reverse scan finds the reference `FallbackText` |
| ChatStreamRoute.FallbackAbsentIffNoneUsable | app/api/chat/stream/route.ts:175-209 | there is no fallback text exactly when no final message has truthy, non-blank content |
| ChatStreamRoute.FallbackIsLastUsableMessage | app/api/chat/stream/route.ts:176-205 | the fallback text is the flattened content of the last usable message |
| ChatStreamRoute.HandleEvent | app/api/chat/stream/route.ts:86-211 | one event's messages and the new `hasStreamedContent` are those of the reference `EventOutput` and `FlagAfter`, and handling throws exactly when a model-stream token's `text` is a truthy non-string |
| ChatStreamRoute.FirstThrowing | app/api/chat/stream/route.ts:86-97 | the first event whose handling throws: none before it throws, and it does unless it is past the end |
| ChatStreamRoute.TranslateEvents | app/api/chat/stream/route.ts:79-212 | the event loop writes the reference `EmitUpTo` of all events, or, when handling one throws, of the events up to and including the first such one, and reports the throw |
| ChatStreamRoute.StartStream | app/api/chat/stream/route.ts:55-239 | `startStream` writes the reference `StreamSpec` |
| ChatStreamRoute.EmitCarriesOnlyContent | app/api/chat/stream/route.ts:83-212 | the event loop writes only tokens and tool messages |
| ChatStreamRoute.StreamIsFramed | app/api/chat/stream/route.ts:55-231 | the stream starts with `Connected`, ends with one `Done` or `Error`, and carries only content messages in between |
| ChatStreamRoute.TerminalMessage | app/api/chat/stream/route.ts:215-231 | `Done` exactly when nothing threw; otherwise the `Error` carries the thrown error's message, or "unknown error" / "Stream processing failed" for a non-Error thrown value, depending on which catch handled it |
| ChatStreamRoute.OpaqueTextEndsStream | app/api/chat/stream/route.ts:86-225 | a model-stream event with a truthy non-string `text` still gets its token out, then the stream ends with an `Error` carrying the `TypeError`'s message: no later event is handled and no `Done` is written |
| ChatStreamRoute.SimpleModeStreamsModelTokens | app/api/chat/stream/route.ts:86-112 | in simple mode the stream carries the model-stream tokens and nothing else |
| ChatStreamRoute.ModelStreamIsModeIndependent | app/api/chat/stream/route.ts:86-99 | a model-stream event writes the same token in both modes and leaves `hasStreamedContent` alone |
| ChatStreamRoute.ToolMessagesFollowToolEvents | app/api/chat/stream/route.ts:154-166 | in deep research mode the tool messages of the stream are exactly the tool events, in order |
| ChatStreamRoute.FlagStaysSet | app/api/chat/stream/route.ts:80-211 | `hasStreamedContent` is never reset |
| ChatStreamRoute.FallbackAtMostOnce | app/api/chat/stream/route.ts:169-205 | the chain-end fallback fires at most once, and only when no earlier chain-stream event produced a token |
| SseParser.ClassifyLine | lib/createSSEParser.ts:15-35 | a line not starting with `data: ` once trimmed gives nothing; `[DONE]` gives `Done`; a payload `JSON.parse` rejects gives the parse-failure `Error`; a parsed message is kept exactly when its type is known |
| SseParser.BufferIsTextAfterLastNewline | lib/createSSEParser.ts:11-12 | the new buffer is the text after the last line feed, free of line feeds |
| SseParser.OnlyCompleteLinesProduceOutput | lib/createSSEParser.ts:11-36 | at most one message per complete line; a chunk without a line feed only grows the buffer |
| SseParser.ChunkBoundaryIndependence | lib/createSSEParser.ts:9-37 | feeding `a` then `b` gives the messages and buffer of feeding `a + b` at once |
| SseParser.AnyChunkingParsesAlike | lib/createSSEParser.ts:9-37 | however the text is cut into chunks, the messages and the final buffer are those of parsing it whole |
| SseParser.Parser.Parse | lib/createSSEParser.ts:10-37 | `parse` returns the messages of the reference `ParseStep` and keeps its buffer |
| WireRoundTrip.FrameParses | app/api/chat/stream/route.ts:20-30 | one frame written by `sendSSEMessage` parses to its message and leaves the buffer empty |
| WireRoundTrip.WireParses | app/api/chat/stream/route.ts:20-30 | everything the route writes parses to the messages it sent, in order |
| WireRoundTrip.StreamArrivesIntact | lib/createSSEParser.ts:9-37 | however the decoded text is cut into chunks, the browser receives exactly the stream `startStream` sent, with nothing left in the buffer |
| MessageBubble.CollapseUndoesDoubling | components/MessageBubble.tsx:20 | collapsing backslash pairs undoes the doubling of every backslash |
| MessageBubble.UnescapeUndoesEscaping | components/MessageBubble.tsx:21 | unescaping `\n` restores the line feeds of a text without backslashes |
| MessageBubble.RemoveMarkerSplices | components/MessageBubble.tsx:22-26 | a marker, with the line feed after it if any, is cut out and the text around it is kept |
| MessageBubble.WordRunIsMaximal | components/MessageBubble.tsx:30 | the fence tag is the whole run of word characters after the backticks |
| MessageBubble.FindBackticksIsFirst | components/MessageBubble.tsx:30 | the body ends at the first backticks after it: no backticks inside the body |
| MessageBubble.FindFenceIsLeftmost | components/MessageBubble.tsx:30-35 | the match found is the leftmost one, and none exists after `lastIndex` when none is found |
| MessageBubble.PiecesRebuildText | components/MessageBubble.tsx:35-68 | the pieces put back together are the cleaned text: in source order, with nothing lost or duplicated |
| MessageBubble.FenceType | components/MessageBubble.tsx:44-51 | the type is mermaid exactly for "mermaid", html exactly for "html", and never text |
| MessageBubble.KeepNonEmpty | components/MessageBubble.tsx:70 | only non-empty segments are kept, each one of the scanned segments |
| MessageBubble.KeepNonEmptyAppend | components/MessageBubble.tsx:70 | filtering a concatenation filters each part, so the kept segments stay in order |
| MessageBubble.KeepNonEmptyKeepsEvery | components/MessageBubble.tsx:70 | every non-empty segment is kept |
| MessageBubble.PushMatch | components/MessageBubble.tsx:36-59 | one loop turn (the text before the match, then the fence's segment) moves `lastIndex` strictly forward, within the text, and leaves the segments the loop ends with unchanged |
| MessageBubble.ScanSegments | components/MessageBubble.tsx:29-68 | the loop and the trailing text give one segment per piece of the cleaned text |
| MessageBubble.ParseMessage | components/MessageBubble.tsx:18-71 | `parseMessage` returns the reference `ParsedSegments` |
| MessageBubble.NonBlankPiecesKept | components/MessageBubble.tsx:35-70 | the segment of every piece of the cleaned text that is not blank is among the segments returned |
| MessageBubble.SegmentsAreTrimmedAndNonEmpty | components/MessageBubble.tsx:35-70 | every segment is trimmed and not empty |
| MessageBubble.SegmentTypesFollowTags | components/MessageBubble.tsx:38-57 | text segments have no language; a fence's segment has its tag, or "plaintext", and the type the tag selects |
| MessageBubble.NoFenceMeansOneTextSegment | components/MessageBubble.tsx:62-70 | without a complete fence the message is one text segment, the cleaned text, or nothing when that is empty |
| ChatTitle.ContextLines | convex/actions.ts:25-27 | the first six messages only, each one `role: content` with the content cut to 200 characters |
| ChatTitle.ContextSeesFirstSix | convex/actions.ts:26 | messages after the sixth do not reach the model |
| ChatTitle.ContextAppend | convex/actions.ts:25-28 | up to the sixth, each message adds a blank line and its line, in order |
| ChatTitle.ContextLineShape | convex/actions.ts:27 | a line starts with the full role and `: `, then at most 200 characters of the content |
| ChatTitle.PromptCarriesContext | convex/actions.ts:38-46 | the context appears in the prompt verbatim, after the instructions |
| ChatTitle.StripQuotes | convex/actions.ts:52 | the result has no `'` or `"`, is no longer than the input, and is empty exactly when every character is a quote |
| ChatTitle.StripQuotesOne | convex/actions.ts:52 | a quote is dropped and any other character kept; with `StripQuotesAppend`, every other character is kept in order |
| ChatTitle.StripQuotesAppend | convex/actions.ts:52 | removing quotes from a concatenation removes them from each part |
| ChatTitle.StripQuotesKeepsUnquoted | convex/actions.ts:52 | text without quotes is left alone |
| ChatTitle.SanitisedTitle | convex/actions.ts:49-53 | the title has at most 50 characters and no quotes, and is the start of the trimmed, unquoted reply: all of it when that fits, otherwise its first 50 characters |
| ChatTitle.CleanTitleKept | convex/actions.ts:49-53 | a short, unquoted, unpadded reply becomes the title unchanged |
| ChatTitle.GenerateChatTitle | convex/actions.ts:9-71 | an empty chat is titled "New Chat" with no model call; otherwise the model is asked once with the context, and its reply is cleaned or, if it threw, "New Chat" is used; the one stored title is the one returned |
| ChatTitle.TitleIsStoredAndClean | convex/actions.ts:15-70 | whatever the model does, the stored title is the returned title, at most 50 characters and free of quotes |
| ChatTitle.ModelAskedOnlyWithMessages | convex/actions.ts:15-48 | the model is asked once for a chat with messages and never for an empty one |

## Left out

- The stream's constants are assumed. `SSE_DATA_PREFIX` (`data: `), `SSE_LINE_DELIMITER` (a blank line), `SSE_DONE_MESSAGE` (`[DONE]`) and the wire names of `StreamMessageType` are defined in lib/types.ts. That file is not part of this model, so their values are assumptions.
- `JSON.parse` and `JSON.stringify` are abstract parameters. The round-trip lemmas require `StreamProtocol.JsonRoundTrips`: a message's JSON is one line, starts with `{`, ends with `}`, and parses back to the same message with its wire type name.
- Writes to the response stream, `writer.close()`, `updateChatTitle`, and the Convex mutations and queries other than `api.messages.send` are taken to succeed. The throw of `convex.mutation(api.messages.send)` is modelled; a failed write or close is not.
- Console logging and the unused `streamedContent` accumulator in the route are not modelled.
- `Promise.all` in `parallel_research` becomes a sequential map (`LangGraph.ResearchAll`). The researchers share nothing, so the order of completion does not matter. Interleaving is not modelled.
- `trimMessages`, `ToolNode` (the simple graph's tool node), the LangGraph runtime and its `streamEvents`, the model client, the Tavily and wxflows clients, and the prompt texts are not modelled. The graphs appear as their edges, and the researcher's fixed prose as an opaque parameter.
- Strings are sequences of code points, not UTF-16 code units. So `slice(0, 200)` and `slice(0, 50)` in the title action count characters, and never split a surrogate pair.
- `ChatStreamRoute.FieldText`: a truthy non-string `text` in the first block of a model-stream chunk is sent as a string token, its `String(...)` rendering. The source sends the value itself inside the JSON. The throw that follows at route.ts:97 is modelled: the stream then ends with an `Error` and no `Done` (`ChatStreamRoute.OpaqueTextEndsStream`). A truthy non-string with its own `substring` method, such as a `String` object, is taken to throw as well.
- The model's reply in the title action is its `content.toString()` text. How an array content renders through `toString()` is not modelled.
- `LangGraph.ExtractPlan`: what `JSON.parse` returns is abstracted to a syntax error, `null`, or a value whose `tasks` property is missing, a list of tasks, or something else. The fields of the task objects are taken as parsed.
- `WireRoundTrip.StreamArrivesIntact`: components/ChatInterface.tsx:48 decodes each read with a fresh `TextDecoder`. The round trip holds only when every read ends on a character boundary. A character split across reads arrives as U+FFFD.
- The language model in the LangGraph model is a total function and never throws. In the source, `model.invoke` (lib/langgraph.ts:198, :248) is outside any `try`, so a rejection fails the researcher, `Promise.all` (:370) and the node. That error reaches the route as the submission's thrown value (`ChatStreamRoute.Submission`'s `Submitted(events, Some(e))`).
- The route's request handling outside `startStream` (authentication, body parsing and the 500 response) is not modelled.

## Findings

| source | as written | input that shows it | evidently intended | confidence | as-written member | corrected member |
|---|---|---|---|---|---|---|
| lib/langgraph.ts:218 | a researcher looks requested tools up in `tools`, the wxflows tools only (:159), although its model is bound to `totalTools`, which adds `tavily_search` (:166-167), and is told to use `tavily_search` (:184) | no wxflows tool is named `tavily_search`, and the model replies with the call `ToolCall("c1", "tavily_search", "{}")`: the call is skipped (:219-221), and the next model call sees the AI message with no tool result after it | look the call up in `totalTools`, so that Tavily answers it | not executed | LangGraph.ExecuteResearchTask, LangGraph.TavilyOnlyRunGetsNoToolMessages | LangGraph.ExecuteResearchTaskCorrected, LangGraph.TavilyRunAnsweredWhenCorrected |
