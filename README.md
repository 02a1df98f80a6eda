# Verified model of the CopilotKit × Mastra demo's streaming client logic

This project models the part of the demo page that reads streams, written in Dafny, and
proves properties of it. There are three frontend actions on the page:

- `callWorkflowDirectly` runs the two-step workflow and fills a card with one line per event.
- `callWorkflowWithAppendMessage` runs the same workflow and posts one chat message per known event.
- `callSubAgentDirectly` streams a sub-agent's answer into a card.

The project also models the two-step demo workflow itself.

The two workflow actions each read the workflow's event stream chunk by chunk:

1. They keep the text after the last blank line `"\n\n"` in a carry-over buffer.
2. They interpret only the frames of the form `data: <json>`.
3. They skip the `[DONE]` sentinel and any payload that does not parse.
4. They turn each event into a display line through an if-else chain on its `type`.

The sub-agent action joins the `text-delta` chunks of the agent's stream, in order. The two card actions, `callWorkflowDirectly` and `callSubAgentDirectly`, each keep their per-call state in a map entry keyed by the call's id, and their render functions decide from that entry whether a card is shown and what it says. `callWorkflowWithAppendMessage` keeps no state and renders no card; it only appends chat messages.

Modules:

- `Wrappers`: the optional value, and how JavaScript prints and tests a possibly undefined string.
- `Decimal`: the decimal rendering of a count, with its parser as its inverse.
- `Collections`: associativity of concatenation, and overwriting a map key.
- `EventStream`: splitting on `"\n\n"` with the leftmost, non-overlapping semantics of `String.prototype.split`.
  - Complete frames and the carry-over tail.
  - Feeding chunks one at a time versus splitting the whole text.
  - The `data: ` prefix.
- `WorkflowEvents`: the event properties the page reads, and the categories of the if-else chain.
  - The display lines, with and without the fallback for unknown types.
  - Which frames carry an event.
- `Actions`: a tool call's status as the chat toolkit reports it.
- `WorkflowPanel`: both workflow handlers as loops over chunks and over frames, and the workflow card.
- `SubAgentPanel`: the sub-agent handler, and the sub-agent card.
- `TestWorkflow`: the two steps, the committed chain, and a writer class whose log grows with each write.

React state is a value. A handler takes the state map and returns the updated map; each `setState(prev => ({...prev, [id]: v}))` is a map update. The handlers' loops keep the invariant that the map equals the initial map with only the call's own entry replaced.

`JSON.parse`, followed by the property reads, is a parameter `parse` of type `string -> Option<WorkflowEvent>`. `None` stands for a throw. The response is a value: either a rejected fetch, or a status with an optional body. The body is a list of decoded text chunks plus how the reading ended.

## Model

| member | source | states |
|---|---|---|
| EventStream.FindDelimiter | src/app/page.tsx:247 | the result is the leftmost `"\n\n"` at or after the start index; None means there is none |
| EventStream.Split | src/app/page.tsx:247-248 | `split("\n\n")` is never empty, so `pop()` always yields the buffer |
| EventStream.SplitRejoins | src/app/page.tsx:246-248 | the frames, each followed by `"\n\n"`, then the new buffer, give back the old buffer plus the chunk |
| EventStream.SplitPiecesClean | src/app/page.tsx:247-248 | no frame and no buffer holds `"\n\n"`, and no frame ends in a newline |
| EventStream.SplitTerminated | src/app/page.tsx:247-248 | converse round trip: such frames and a delimiter-free rest split back into exactly those frames and that rest |
| EventStream.SplitAppend | src/app/page.tsx:246-248 | splitting more text keeps the frames already complete and re-splits only the tail plus the new text |
| EventStream.FeedStep | src/app/page.tsx:246-250 | one feed step: it yields the old frames plus the frames of tail-plus-chunk, and its tail is the new buffer |
| EventStream.FramesGrow | src/app/page.tsx:246-250 | frames are handled in order, and a handled frame is never redone: earlier frames are a prefix of later ones |
| EventStream.FeedingMatchesSplit | src/app/page.tsx:241-250 | feeding chunks one at a time yields the frames and the buffer of splitting all the text at once |
| EventStream.FedTextRejoins | src/app/page.tsx:241-250 | after every chunk, the text so far is the handled frames, each with its delimiter, then a delimiter-free buffer |
| EventStream.Frames | src/app/page.tsx:247-248 | defining function: the pieces of `split` before the last one, the `lines` the frame loop handles; SplitRejoins, SplitPiecesClean and SplitTerminated state its properties |
| EventStream.Tail | src/app/page.tsx:248 | defining function: the last piece of `split`, `lines.pop()`; the new buffer; SplitRejoins and SplitPiecesClean state its properties |
| EventStream.Buffered | src/app/page.tsx:241-248 | defining function: the buffer after the read loop has taken the chunks one at a time; FeedingMatchesSplit and FedTextRejoins state its properties |
| EventStream.FedFrames | src/app/page.tsx:241-250 | defining function: the frames the read loop has handled, chunk by chunk, in order; FeedingMatchesSplit and FedTextRejoins state its properties |
| EventStream.DataPayload | src/app/page.tsx:251-252 | a payload exists iff the frame starts with `data: `, and it is the frame minus that 6-character prefix |
| Decimal.NatToDecimal | src/app/page.tsx:305 | a count renders as non-empty digits without a leading zero, and the digits read back to the count |
| Wrappers.Shown | src/app/page.tsx:270-272 | defining function: how a template literal prints a string property, undefined as `undefined`; LineBadge and ProgressShowsMessage use it |
| Wrappers.Truthy | src/app/page.tsx:58 | defining predicate: JavaScript truthiness of a possibly undefined string, as `&&` and `||` test it; StepLabel and RenderSubAgentCard state what it selects |
| WorkflowEvents.CategoryOf | src/app/page.tsx:262-280 | defining function: the branch of the `type` test chain an event falls into; Describe, DescribeWithFallback and LineRevealsCategory state its properties |
| WorkflowEvents.StepLabel | src/app/page.tsx:265 | `stepName || "step"` is never empty, and it is the name whenever the name is truthy |
| WorkflowEvents.Describe | src/app/page.tsx:376-391 | the append handler's chain yields a line iff the event's type is one of the five known types |
| WorkflowEvents.DescribeWithFallback | src/app/page.tsx:262-280 | the direct handler's line is never empty; for known types it is the append handler's line |
| WorkflowEvents.LineBadge | src/app/page.tsx:262-280 | every line starts with its branch's emoji badge; an unknown type gives `📦 ` plus the printed type |
| WorkflowEvents.LineRevealsCategory | src/app/page.tsx:262-280 | the category can be read back off the line, so different branches never give the same line |
| WorkflowEvents.StepNameDefaults | src/app/page.tsx:264-275 | a step start or step result without a truthy step name is shown as `▶️ step開始` or `✅ step完了` |
| WorkflowEvents.ProgressShowsMessage | src/app/page.tsx:266-270 | a `workflow-step-output` whose output type is `step-progress` is shown as `📝 ` plus its message |
| WorkflowEvents.FrameEvent | src/app/page.tsx:251-258 | a frame carries an event iff it is a `data: ` frame, its payload is not `[DONE]`, and the payload parses |
| WorkflowEvents.ParsedEvents | src/app/page.tsx:250-297 | defining function: the events of the frames, in frame order, as the frame loop meets them; ParsedEventsAppend, SkippedFrame and its instances state its properties |
| WorkflowEvents.ParsedEventsAppend | src/app/page.tsx:250-297 | the events of consecutive frame lists are the events of each list, in order |
| WorkflowEvents.SkippedFrame | src/app/page.tsx:250-297 | a frame that carries no event leaves the events of the frames around it unchanged |
| WorkflowEvents.SentinelSkipped | src/app/page.tsx:253-255 | `data: [DONE]` is skipped without ending the stream, so later frames still count |
| WorkflowEvents.UnparsableSkipped | src/app/page.tsx:257-295 | a payload that fails to parse is skipped, and processing continues with the next frame |
| WorkflowEvents.NonDataSkipped | src/app/page.tsx:251 | a frame that does not start with `data: ` is skipped |
| WorkflowEvents.DisplayLines | src/app/page.tsx:282-283 | exactly one line per event |
| WorkflowEvents.DisplayLinesAt | src/app/page.tsx:282-283 | line k is the line of event k |
| WorkflowEvents.DisplayLinesAppend | src/app/page.tsx:282-283 | the lines of consecutive event lists are the lines of each list, in order |
| WorkflowEvents.AnnouncedLines | src/app/page.tsx:376-400 | defining function: the messages the append handler posts for the events, in order; AnnouncedAreKnownLines and AnnouncedLinesAppend state its properties |
| WorkflowEvents.AnnouncedLinesAppend | src/app/page.tsx:393-400 | the messages of consecutive event lists are the messages of each list, in order |
| WorkflowEvents.KnownEvents | src/app/page.tsx:376-391 | the kept events all have a known type; KnownEventsSingle and KnownEventsAppend state that every known event is kept, in order |
| WorkflowEvents.KnownEventsSingle | src/app/page.tsx:376-393 | a single event is kept exactly when its type is one of the five known types |
| WorkflowEvents.KnownEventsAppend | src/app/page.tsx:376-393 | the filter distributes over concatenation, so every known event is kept and the order is kept |
| WorkflowEvents.UnknownPostsNothing | src/app/page.tsx:376-396 | an event of an unrecognised type posts no message, wherever it comes, and the other messages are unchanged |
| WorkflowEvents.AnnouncedAreKnownLines | src/app/page.tsx:376-396 | the append handler's messages are the direct handler's lines for the events of known type, in order |
| WorkflowEvents.AllKnownKeepsEvery | src/app/page.tsx:376-391 | when every type is known, no event is filtered out |
| WorkflowEvents.AllKnownAgree | src/app/page.tsx:376-396 | when every type is known, the two handlers show the same lines |
| WorkflowPanel.Streams | src/app/page.tsx:227-236 | defining predicate: the fetch succeeded, `response.ok` holds (status 200-299) and there is a body; otherwise the handlers take the error path, as CallWorkflowDirectly and CallWorkflowWithAppendMessage state |
| WorkflowPanel.Completes | src/app/page.tsx:241-244 | defining predicate: the body was read to `done` with no read rejected |
| WorkflowPanel.DirectReply | src/app/page.tsx:305 | defining function: `Workflow完了: ${events.length}個のイベント`; ReplyReportsCount states that it reports the count |
| WorkflowPanel.StreamEvents | src/app/page.tsx:241-297 | defining function: the events of the complete frames of the whole body, in order; CallWorkflowDirectly, CallWorkflowWithAppendMessage and UnterminatedTailDiscarded state their results in terms of it |
| WorkflowPanel.ReportedCount | src/app/page.tsx:305 | the inverse of the reply's interpolation, used by ReplyReportsCount; not in the source: reads the count back out of a reply |
| WorkflowPanel.ReplyReportsCount | src/app/page.tsx:305 | the success reply `Workflow完了: N個のイベント` reads back to N, and the error reply reads as no count |
| WorkflowPanel.CallWorkflowDirectly | src/app/page.tsx:209-313 | after a full read, the entry holds one line per event of the complete frames, in order, with streaming off, and the reply reports their count; on a rejected fetch, a bad status, no body or a failed read, it holds only the error line and the reply is the error text; no other entry changes |
| WorkflowPanel.ShowChunk | src/app/page.tsx:246-297 | a chunk shows the lines of the frames it completes, keeps the rest as the buffer, and republishes only the call's entry |
| WorkflowPanel.ShowFrames | src/app/page.tsx:250-297 | the frame loop appends the frames' lines in order and publishes them in the call's entry |
| WorkflowPanel.ShowFrame | src/app/page.tsx:251-295 | one frame adds its line (or nothing if it carries no event), and the entry is republished still streaming |
| WorkflowPanel.CallWorkflowWithAppendMessage | src/app/page.tsx:329-416 | the chat gains one message per known-type event of the complete frames, in order, and keeps them after a failed read; nothing is appended before a good response; the reply is the completion text only after a full read |
| WorkflowPanel.AnnounceChunk | src/app/page.tsx:360-409 | a chunk posts the messages of the frames it completes, and keeps the rest as the buffer |
| WorkflowPanel.AnnounceFrames | src/app/page.tsx:364-409 | the frame loop posts the frames' messages in order |
| WorkflowPanel.AnnounceFrame | src/app/page.tsx:365-408 | one frame posts its message, or nothing for an unknown type or a frame with no event |
| Actions.ShownByStatus | src/app/page.tsx:173 | defining predicate: the status is `executing` or `complete`, the status test both cards share (also page.tsx:56); RenderWorkflowCard and RenderSubAgentCard state what it shows |
| WorkflowPanel.RenderWorkflowCard | src/app/page.tsx:171-202 | shown iff executing, complete, streaming, or there is a line; shows the placeholder exactly when there is no line; the cursor shows iff streaming; no entry means none and not streaming |
| WorkflowPanel.StreamingCardShown | src/app/page.tsx:171-202 | while the handler runs, the card shows the placeholder or the lines, with the cursor |
| WorkflowPanel.FailedCardShowsError | src/app/page.tsx:171-202 | after a failure, the card shows only the error line, without the cursor |
| WorkflowPanel.UnterminatedTailDiscarded | src/app/page.tsx:241-244 | text after the last delimiter at `done` is never interpreted: only the complete frames give events |
| WorkflowPanel.ChunkingIrrelevant | src/app/page.tsx:241-250 | where the chunk boundaries fall does not matter; a frame split across chunks is interpreted once |
| SubAgentPanel.DeltaText | src/app/page.tsx:127-128 | defining function: the text a chunk adds, its printed `payload.text` if its type is `text-delta`, else nothing; OtherChunksIgnored states the second case |
| SubAgentPanel.StreamedText | src/app/page.tsx:123-135 | defining function: `fullText` after the chunks, their delta texts in order; StreamedTextAppend, StreamedTextGrows, OtherChunksIgnored and DeltasOnly state its properties |
| SubAgentPanel.StreamedTextAppend | src/app/page.tsx:125-135 | the text of a concatenated stream is the two texts concatenated |
| SubAgentPanel.StreamedTextGrows | src/app/page.tsx:125-135 | the text published while streaming only grows: an earlier text is a prefix of a later one |
| SubAgentPanel.OtherChunksIgnored | src/app/page.tsx:127 | a chunk whose type is not `text-delta` changes nothing, wherever it comes |
| SubAgentPanel.Deltas | src/app/page.tsx:127-128 | a stream of one text-delta chunk per text, used by DeltasOnly; not in the source |
| SubAgentPanel.DeltasOnly | src/app/page.tsx:127-128 | a stream of text deltas accumulates exactly their texts, joined in order |
| SubAgentPanel.CallSubAgentDirectly | src/app/page.tsx:92-155 | after a complete stream, the entry holds the joined delta texts with streaming off, and that text is the result; if the stream throws, the entry is empty text with streaming off and the result is the error text; no other entry changes |
| SubAgentPanel.RenderSubAgentCard | src/app/page.tsx:52-88 | shown iff executing, complete, streaming, or there is text; shows the result if complete with a truthy result, else the streamed text, else the thinking placeholder; the cursor shows iff streaming |
| SubAgentPanel.CompletedCardShowsAnswer | src/app/page.tsx:52-88 | a completed call with a non-empty answer shows that answer, without the cursor |
| SubAgentPanel.EmptyAnswerShowsThinking | src/app/page.tsx:52-88 | an empty answer is falsy, so a completed call with no text still shows the thinking placeholder |
| SubAgentPanel.FailedCardShowsError | src/app/page.tsx:52-88 | a failed call, once complete, shows the error result |
| SubAgentPanel.NoCardBeforeExecution | src/app/page.tsx:52-88 | while arguments are still streaming, a call with no entry renders nothing |
| TestWorkflow.Step1Result | src/mastra/workflows/test-workflow.ts:21 | defining function: step1's `Step1: ${value}`; Step1RoundTrip states that it determines its input |
| TestWorkflow.Step2Result | src/mastra/workflows/test-workflow.ts:38 | defining function: step2's `${result} -> Step2完了`; Step2RoundTrip states that it determines its input |
| TestWorkflow.WorkflowResult | src/mastra/workflows/test-workflow.ts:51-64 | defining function: step2's output applied to step1's; WorkflowRoundTrip states its value and that it determines the input |
| TestWorkflow.Step1Input | src/mastra/workflows/test-workflow.ts:21 | the inverse of step1's interpolation, used by Step1RoundTrip; not in the source: whatever it reads back, step1 maps to the given output |
| TestWorkflow.Step2Input | src/mastra/workflows/test-workflow.ts:38 | the inverse of step2's interpolation, used by Step2RoundTrip; not in the source: whatever it reads back, step2 maps to the given output |
| TestWorkflow.Step1RoundTrip | src/mastra/workflows/test-workflow.ts:21-23 | `Step1: <value>` determines the value |
| TestWorkflow.Step2RoundTrip | src/mastra/workflows/test-workflow.ts:38-46 | `<result> -> Step2完了` determines the result |
| TestWorkflow.WorkflowInput | src/mastra/workflows/test-workflow.ts:51-64 | the inverse of the whole workflow, step2's inverse then step1's, used by WorkflowRoundTrip and WorkflowInputSound; not in the source |
| TestWorkflow.WorkflowRoundTrip | src/mastra/workflows/test-workflow.ts:51-64 | the workflow's output is `Step1: <value> -> Step2完了`, and it reads back to the input |
| TestWorkflow.WorkflowInputSound | src/mastra/workflows/test-workflow.ts:51-64 | only an output of the workflow reads back to an input |
| TestWorkflow.Writer.Write | src/mastra/workflows/test-workflow.ts:15-18 | a write appends its record to the log |
| TestWorkflow.Step1 | src/mastra/workflows/test-workflow.ts:13-24 | returns `Step1: <value>`; with a writer, the log gains exactly the `step1を開始しました` record; without one, nothing is written and the result is the same |
| TestWorkflow.Step2 | src/mastra/workflows/test-workflow.ts:36-47 | returns the result plus ` -> Step2完了`; with a writer, the log gains exactly the `step2を終了しました` record; without one, nothing is written and the result is the same |
| TestWorkflow.RunTestWorkflow | src/mastra/workflows/test-workflow.ts:51-64 | the output depends on the value alone, whether or not there is a writer; a writer gets step1's record, then step2's |

## Left out

- Decoding. `TextDecoder` is not modelled: each chunk is already decoded text. The source never flushes the decoder at `done` (it breaks out of the loop without a final `decode()`). Any bytes the decoder still held would belong to the unterminated tail, which is discarded anyway, so nothing is lost.
- Network and reader. `fetch` and the reader are not modelled as calls. A response is a status, an optional body and the chunks the reader delivers. How the read ends is part of that body.
- JSON. `JSON.parse` and the property reads are an abstract `parse` function. Non-string property values are not modelled; every property read is either a string or undefined. For example, a numeric `stepName` would be printed by the page and is not modelled.
- SubAgentPanel.CallSubAgentDirectly: the agent client is not modelled. `MastraClient`, `getAgent("subAgent").stream(...)` and `processDataStream` become the given chunk list. A throw anywhere is the `Thrown` end after some chunks. A chunk without a `payload` object, which throws, is not modelled.
- Rendering snapshots. Handlers thread the state map as a value, so the model states the final map and the loop invariant. The renders React shows between updates (`flushSync`) are not modelled. Neither is how concurrent calls interleave their `prev` updates.
- WorkflowPanel.CallWorkflowWithAppendMessage: `appendMessage` is an append to a list of message texts. It is not modelled failing. The role field and the `setTimeout` yield are left out.
- Logging. `console.*` is not modelled.
- Out of scope:
  - the theme-colour action and the weather, moon and proverb cards;
  - the JSX markup and styles;
  - the agent definitions, the Mastra instance, the browser client helper and the build configuration, which are declarative configuration;
  - the server-side stream relays, which are not part of this model.
- TestWorkflow.Step1, TestWorkflow.Step2: a rejected `writer.write` is not modelled. `Write` always succeeds here, so the order of writing and computing inside a step is not observable. In the source it matters only when the write rejects: step1 then throws before computing its result, and step2 after computing it.
- TestWorkflow.RunTestWorkflow: the Mastra workflow engine is not modelled. Schema validation and step scheduling are out; the run calls the two steps in order. How the engine turns the progress records into `workflow-step-output` events is not modelled.
