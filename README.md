# Deep research chat — a verified model

This project models the core of a small "deep research" web application.

- **Backend agent.** A Python agent (`backend/agent.py`) drives a chat-completion model. The model may call tools. The agent runs at most fifteen iterations and yields progress events: statuses, reasoning, tool calls, found links and the answer.
- **Backend server.** A FastAPI endpoint (`backend/api.py`) relays those events to the browser as server-sent events. After them it sends one `done` record, or one `error` record when the run raised.
- **Frontend.** A React page streams the records (`frontend/src/api.ts`) and folds each event into the assistant's message (`App.tsx`). It renders the message as a bubble (`ChatMessage.tsx`) holding a research panel (`ResearchingIndicator.tsx`). Text is revealed by a typewriter (`TypewriterMarkdown.tsx`).

## How the modules are organised

| module | file | models |
|---|---|---|
| Options, Types, Text | option.dfy, types.dfy, text.dfy | events, messages and JSON values. Also the string operations the source relies on: JS `trim` and Python `strip`, `split('\n')`, `str.replace`, and the decimal text of an iteration number. |
| StreamClient | stream_client.dfy | `streamChat` (api.ts). The reader loop is a method, proved against `ClientCalls`, the list of callbacks a response produces. |
| Conversation | conversation.dfy | `App`'s state as the class `ChatApp`, its submit handler and its three stream callbacks. These are proved against pure updaters of the message list. |
| Typewriter | typewriter.dfy | the typewriter's effect and timer, as the class `TypewriterState`. |
| Links, ChatMessageView, ResearchIndicator | links.dfy, chat_message.dfy, researching_indicator.dfy | the link de-duplication both views share, what a bubble shows, and what the research panel shows. |
| LlmClient | llm_client.dfy | `NvidiaLLM.ainvoke`: formatting the conversation, the `/think` directive, extracting the `<think>` block, and parsing tool arguments. |
| Research | research.dfy | `DeepResearchAgent.research`: the fifteen-iteration loop, the tool calls, and the final step. |
| SseServer | sse_server.dfy | `event_generator`. |

**Oracles.** Services outside the model are function values passed in:

- the chat-completion endpoint;
- the MCP tool session: whether opening it raises, and what each tool call does;
- `json.loads` and `json.dumps`, and the browser's `JSON.parse` (which throws, yields `null`, or yields a value read as an event);
- the traceback text.

Every property holds for every such function.

**Methods and their specifications.** The loops of the source are methods, and each is proved equal to a recursive specification function:

- the chunk reader and the line loop in `streamChat`;
- the formatting loop and the tool-call loop of `ainvoke`;
- the iteration loop and the tool loop of `research`.

The lemmas state what those functions guarantee.

## Model

| member | source | states |
|---|---|---|
| Text.TrimSpec | frontend/src/api.ts:39 | JS `trim` and Python `strip` remove exactly the leading and trailing whitespace: the result is a slice of the input, and it neither starts nor ends with a space. |
| Text.TrimEmptyIff | frontend/src/App.tsx:29 | A text trims to empty exactly when every character is whitespace. |
| Text.TrimIdempotent | backend/agent.py:77 | Stripping twice is stripping once. |
| Text.JoinSplit | frontend/src/api.ts:34 | `split('\n')` loses nothing: joining the parts with the separator gives back the text. |
| Text.SplitJoin | backend/agent.py:193 | Parts free of the separator, joined and split again, come back unchanged. |
| Text.Split | frontend/src/api.ts:34 | Splitting gives at least one part, and no part holds the separator. |
| Text.SplitTwoLines | frontend/src/api.ts:34 | Two separator-free lines joined by a line break split back into those two lines. |
| Text.IndexOfSpec | backend/agent.py:75 | The search returns the first occurrence at or after the start, and `None` exactly when there is none. |
| Text.IndexOfAt | backend/agent.py:75 | An occurrence at `i` with none between the start and `i` is exactly what the search returns. |
| Text.StartsWithPrefix | backend/agent.py:75 | Matching a literal at the start of a text means the text's prefix of that length equals it. |
| Text.RemoveAllAtFirst | backend/agent.py:78 | Python `replace(x, "")` keeps the text before the first occurrence, drops that occurrence and removes every later one too. |
| Text.RemoveAllAbsent | backend/agent.py:78 | Removing a pattern that does not occur changes nothing. |
| Text.DecimalRoundTrip | backend/agent.py:174 | The decimal text of the iteration in the `call_<n>` id reads back as the same number, so ids of different iterations differ. |
| Types.OfKindMembers | frontend/src/components/ResearchingIndicator.tsx:26-27 | Filtering events by type keeps exactly the events of that type. |
| Types.OfKindAppend | frontend/src/components/ResearchingIndicator.tsx:27 | Filtering distributes over concatenation. |
| StreamClient.ClassifyLineSpec | frontend/src/api.ts:36-58 | Per line: an `event:` line only sets the event name to its trimmed remainder. A `data:` line calls back exactly when its trimmed payload is non-empty and parses to an event, or to `null` under the name `done`. Then `done`, from the name or the payload's type, wins over `error`, which wins over `onEvent`. `error` carries the payload's message, or `Unknown error` when that is empty. Any other line does nothing. |
| StreamClient.NullDataLine | frontend/src/api.ts:45-57 | A `null` payload ends the run under the name `done`, whose test is decided before `data.type` is read. Under any other name, reading `data.type` throws and the line is dropped. |
| StreamClient.NullDoneRecord | frontend/src/api.ts:36-57 | `event:done` followed by `data:null` in one chunk ends the run with `onDone`. The same `null` line on its own is dropped. |
| StreamClient.ReadChunk | frontend/src/api.ts:33-61 | Reading one chunk makes exactly the callbacks the chunk's lines specify. It starts with an empty event name and stops at the first terminal callback. |
| StreamClient.ReadChunks | frontend/src/api.ts:24-62 | The read loop makes exactly the callbacks its chunks specify, chunk after chunk, and stops at the first terminal one. |
| StreamClient.StreamChat | frontend/src/api.ts:19-67 | The whole client makes exactly the callbacks its response specifies: a failed request, a missing body, and a read failure after the stream. |
| StreamClient.EndingCases | frontend/src/api.ts:64-67 | A failed request reports its message or `Connection error`, a missing body reports `ReadableStream not yet supported in this browser.`, and neither hands out events. A failed read always ends the run. A clean stream ends only through a terminal record. |
| StreamClient.StreamEventsAreNotTerminal | frontend/src/api.ts:47-54 | Nothing handed to `onEvent` has type `done` or `error`. |
| StreamClient.StreamCallsAppend | frontend/src/api.ts:24-31 | Reading `a` then `b` is reading `a`, then reading `b` unless `a` already ended the run. |
| StreamClient.StreamCallsByLine | frontend/src/api.ts:33-36 | The callbacks of a stream are those of its lines, each line under the event name set earlier in the same chunk, cut at the first terminal one. |
| StreamClient.ThenAssociative | frontend/src/api.ts:24-62 | Sequencing callback runs is associative. |
| StreamClient.SplitDataLineIsLost | frontend/src/api.ts:34-41 | A `data:` record cut between two chunks is dropped. The same record in one chunk is delivered. |
| StreamClient.EventNameIsNotCarried | frontend/src/api.ts:36 | The event name is reset per chunk. `event: done` and its `data:` line in one chunk end the run with `onDone`. Split across two chunks, the data is handed to `onEvent` instead. |
| StreamClient.DoneRecordInOneChunk | frontend/src/api.ts:38-49 | A `done` record whose two lines share a chunk ends the run with `onDone`. |
| StreamClient.DoneRecordInTwoChunks | frontend/src/api.ts:36-54 | A `done` record split after its `event:` line delivers its payload as an ordinary event. |
| Conversation.CanSubmitIff | frontend/src/App.tsx:29 | Submitting goes ahead exactly when the input has a non-whitespace character and no response is in flight. |
| Conversation.FindIndex | frontend/src/App.tsx:56 | A found index is in range and holds the id. |
| Conversation.FindIndexFirst | frontend/src/App.tsx:56 | `findIndex` gives the first message with the id, and `None` exactly when no message has it. |
| Conversation.FindIndexAppend | frontend/src/App.tsx:44 | Appending messages does not move the first match. Without one in the prefix, a match in the tail is found at its shifted index. |
| Conversation.FoldEventsSpec | frontend/src/App.tsx:59-70 | Folding events into a message keeps its id and role. Content becomes the last `answer`'s content. Reasoning grows by the concatenated reasoning texts. Events grow by every event that is neither an answer nor reasoning, in order. |
| Conversation.ListedKinds | frontend/src/App.tsx:67-69 | The listed events are exactly the events that are neither `answer` nor `reasoning`. |
| Conversation.ApplyEventFrame | frontend/src/App.tsx:54-74 | An event changes only the assistant message with the id, and leaves the list alone when none has it. |
| Conversation.ApplyEventsFold | frontend/src/App.tsx:53-75 | A stream of events updates the target message as one fold over all of them. |
| Conversation.Turn | frontend/src/App.tsx:27-97 | One question and its run leave the old messages, then the question, then the placeholder turned into the final reply, and nothing else. |
| Conversation.DoneMarkerIffDone | frontend/src/App.tsx:76-84 | A finished reply lists a `done` marker exactly when the client called `onDone`. |
| Conversation.TypingTarget | frontend/src/App.tsx:137 | While a run is in flight, the bubble rendered as typing is the one being streamed into, and only that one. |
| Conversation.ChatApp.constructor | frontend/src/App.tsx:8-16 | The page starts with the welcome message, an empty input and no response in flight. |
| Conversation.ChatApp.SetInput | frontend/src/App.tsx:156 | Typing changes the input only. |
| Conversation.ChatApp.HandleSubmit | frontend/src/App.tsx:27-49 | A blank input or a response in flight changes nothing. Otherwise the question and an empty placeholder are appended, the input is cleared, typing turns on, and the question is returned as the query. |
| Conversation.ChatApp.OnEvent | frontend/src/App.tsx:53-75 | An event updates the message list as `ApplyEvent` and leaves input and typing alone. |
| Conversation.ChatApp.OnDone | frontend/src/App.tsx:76-86 | The end appends a `done` marker to the target message and turns typing off. |
| Conversation.ChatApp.OnError | frontend/src/App.tsx:87-97 | An error replaces the target message's content with the error text and turns typing off. |
| Typewriter.ArmAdvances | frontend/src/components/TypewriterMarkdown.tsx:21-38 | An effect run arms a timer exactly when text is still hidden. The timer reveals a longer prefix of the content: at least one more character, at most the chunk size more, never past the end. |
| Typewriter.CursorIffArmed | frontend/src/components/TypewriterMarkdown.tsx:72 | The cursor shows exactly while typing with text still hidden, that is, while a timer is armed. |
| Typewriter.NormalPausesRanked | frontend/src/components/TypewriterMarkdown.tsx:24-34 | In normal mode, whatever the jitter, a sentence end waits longer than any other character. A clause break waits longer than a space or a plain character, and a space longer than any plain character. Within each fixed class the pause is the same. |
| Typewriter.JitterRange | frontend/src/components/TypewriterMarkdown.tsx:33 | A plain character in normal mode waits within 5 ms of the 15 ms base: at least 10 ms and under 20 ms. |
| Typewriter.FastIsUniform | frontend/src/components/TypewriterMarkdown.tsx:24-31 | Fast mode waits the same at every character, and less than normal mode waits at any character. |
| Typewriter.TicksReveal | frontend/src/components/TypewriterMarkdown.tsx:15-41 | From a prefix of the content, `n` ticks show the first `start + n * chunk` characters, capped at the whole text. So the reveal finishes. |
| Typewriter.TypewriterState.constructor | frontend/src/components/TypewriterMarkdown.tsx:13 | Nothing is displayed and no timer is pending at mount. |
| Typewriter.TypewriterState.RunEffect | frontend/src/components/TypewriterMarkdown.tsx:15-41 | When not typing, the whole content is shown at once. Otherwise the display is kept and the next timer is armed. |
| Typewriter.TypewriterState.Fire | frontend/src/components/TypewriterMarkdown.tsx:36-38 | A firing timer shows its prefix and is spent. |
| Typewriter.TypewriterState.Unmount | frontend/src/components/TypewriterMarkdown.tsx:40 | The cleanup cancels the pending timer. |
| Links.UrlsMembers | frontend/src/components/ChatMessage.tsx:19 | A URL is among a list's URLs exactly when some link has it. |
| Links.UrlsAppend | frontend/src/components/ChatMessage.tsx:20 | The URLs of a concatenation are the union of the URLs of its parts. |
| Links.FreshUrls | frontend/src/components/ChatMessage.tsx:19 | The links kept from an event are among the event's links and share no URL with those collected before. |
| Links.FreshCovers | frontend/src/components/ChatMessage.tsx:19-20 | After adding an event's fresh links, every URL of the event is collected. |
| Links.AddIsDedup | frontend/src/components/ChatMessage.tsx:17-23 | For an event whose own links have distinct URLs, adding it is the same as de-duplicating its links into the list one by one. |
| Links.DedupIntoAppend | frontend/src/components/ResearchingIndicator.tsx:18-24 | De-duplicating a concatenation is de-duplicating its parts in turn. |
| Links.DedupIntoSpec | frontend/src/components/ResearchingIndicator.tsx:18-24 | De-duplicating keeps the URLs distinct, keeps every URL, and keeps each link whose URL is new. |
| Links.CollectIsDedup | frontend/src/components/ChatMessage.tsx:17-23 | When no event repeats a URL within itself, the fold over events is the de-duplication of all found links. |
| Links.CollectSpec | frontend/src/components/ResearchingIndicator.tsx:18-24 | When no event repeats a URL within itself, the collected links have distinct URLs, cover every found URL, and keep each first occurrence. |
| Links.CollectUrls | frontend/src/components/ChatMessage.tsx:17-23 | The collected links cover exactly the URLs found, with no other precondition. |
| Links.RepeatWithinEventIsKept | frontend/src/components/ChatMessage.tsx:19 | A URL repeated within one event is kept twice, because the filter looks only at earlier events. |
| ChatMessageView.CardLabelsSpec | frontend/src/components/ChatMessage.tsx:111 | One card per link, in order, labelled by its title, or by its URL when the title is empty. |
| ChatMessageView.RenderSpec | frontend/src/components/ChatMessage.tsx:43-118 | A question shows only its text. A typewriter animates only when it is rendered: the reasoning while typing with no content yet, the answer while typing. Sources never show while typing, and otherwise show one card per collected link. The reasoning stops animating once the answer has content. A message without events shows no panel and no sources. |
| ChatMessageView.FinishedReplyShowsSources | frontend/src/components/ChatMessage.tsx:43-85 | A reply finished by `onDone` shows its panel and no animation. Its cards cover every URL that any search found. |
| ResearchIndicator.IsDoneIff | frontend/src/components/ResearchingIndicator.tsx:15 | The panel is complete exactly when some event is an answer or the done marker. |
| ResearchIndicator.IsDoneAppend | frontend/src/components/ResearchingIndicator.tsx:15 | Completeness of a concatenation is completeness of either part. |
| ResearchIndicator.LatestStatusIsLast | frontend/src/components/ResearchingIndicator.tsx:26 | The latest status is the last `status` event, and is absent exactly when there is none. |
| ResearchIndicator.HeaderSpec | frontend/src/components/ResearchingIndicator.tsx:61 | The header reads `Research Complete` once done. Otherwise it shows the latest status message when that is non-empty, and else `Researching...`. |
| ResearchIndicator.ArgsPreviewSpec | frontend/src/components/ResearchingIndicator.tsx:132 | The argument preview is the text when it fits in 100 characters. Otherwise it is the first 100 characters followed by `...`. |
| ResearchIndicator.ListedPanel | frontend/src/components/ResearchingIndicator.tsx:15-27 | The events the page lists hold no reasoning. Without a done marker, none of them makes the panel complete. |
| ResearchIndicator.PanelOfReply | frontend/src/components/ResearchingIndicator.tsx:13-27 | A reply's panel never lists reasoning, and reads complete exactly when the run ended with `onDone`. |
| LlmClient.FormatMessages | backend/agent.py:26-57 | The formatting loop produces the wire messages `Format` specifies. |
| LlmClient.Invoke | backend/agent.py:25-99 | `ainvoke` returns the reply `Ainvoke` specifies, or none when the completion call raises. |
| LlmClient.FormattedOneToOne | backend/agent.py:27-53 | Messages of a listed type are formatted one for one and in order. Nothing is added. |
| LlmClient.AssistantEntry | backend/agent.py:34-51 | An assistant message goes out with role `assistant`. It has `content` exactly when its content is non-empty, and `tool_calls` exactly when it has calls, one wire call per call. |
| LlmClient.WireToolCallsSpec | backend/agent.py:39-50 | One wire tool call per call, in order. |
| LlmClient.AnyThinkIff | backend/agent.py:55 | The check finds a directive exactly when some formatted message is `/think`. |
| LlmClient.ThinkInsertedIff | backend/agent.py:55-57 | The `/think` system message goes in front exactly when no formatted message is one. Either way the messages sent hold the directive. |
| LlmClient.WithThinkIdempotent | backend/agent.py:55-57 | Adding the directive twice is adding it once. |
| LlmClient.ExtractThinkNoBlock | backend/agent.py:73-78 | Without a closed `<think>` block, there is no reasoning and the content is untouched. |
| LlmClient.ExtractThinkBlock | backend/agent.py:75-78 | With the first `<think>` and the nearest `</think>` after it, the reasoning is the stripped text between them, and the content is stripped after every copy of the matched block is removed. |
| LlmClient.ThinkBlockRemoval | backend/agent.py:78 | Removing the matched block keeps everything before it, drops the block itself, and goes on removing copies of it after it. |
| LlmClient.ReasoningStripped | backend/agent.py:77 | Extracted reasoning never starts or ends with whitespace. |
| LlmClient.ReplySpec | backend/agent.py:70-97 | Reasoning is attached only when non-empty and never starts or ends with whitespace. The reply has one call per completion call, in order, with arguments parsed. |
| LlmClient.ParseCallsSpec | backend/agent.py:86-97 | Each wire call becomes a call with the same name and id and its parsed arguments. |
| LlmClient.ParseArgsSpec | backend/agent.py:87-91 | Missing, blank or unparseable arguments give `{}`. Any other text gives what it parses to. |
| LlmClient.ArgsRoundTrip | backend/agent.py:42-49 | Non-string arguments sent to the model come back unchanged when parsed, for a codec that decodes what it encodes. |
| Research.RunTools | backend/agent.py:185-214 | The tool loop yields the events and appends the messages `ToolSteps` specifies. Its results join text parts with the intended line break (see ## Findings). |
| Research.RunTurn | backend/agent.py:150-214 | One iteration yields the events, history and outcome `TakeTurn` specifies. Its tool results join text parts with the intended line break (see ## Findings). |
| Research.RunLoop | backend/agent.py:147-214 | The iteration loop yields the run `Iterate` specifies. Its tool results join text parts with the intended line break (see ## Findings). |
| Research.Conclude | backend/agent.py:216-219 | After the loop, the events and failure are as `Finish`, the intended final step, specifies. |
| Research.RunResearch | backend/agent.py:113-219 | The whole generator yields exactly the events of `Research` and raises exactly when it does, including when the tool session fails to open. Its final step is the intended one. |
| Research.LoopStep | backend/agent.py:150-183 | An iteration that continues leads into the next one. One that answers or raises ends the loop with its events last. |
| Research.StepShape | backend/agent.py:185-214 | One tool call yields its `tool_call` event first, then at most its links. It leaves one tool message answering its id, whether the call returned or raised. |
| Research.ToolStepsEvents | backend/agent.py:185-201 | The tool loop yields one `tool_call` per call, the first call's first, and no status and no answer. Links only follow a `search_web` call. |
| Research.ToolStepsMessages | backend/agent.py:203-214 | The tool loop appends one tool message per call, in order, each answering its call's id. |
| Research.HeadShape | backend/agent.py:152-163 | An iteration opens with one `Analyzing context...`, then at most the reasoning. |
| Research.RespondShape | backend/agent.py:155-214 | After the completion returns, the iteration is well formed: one `Analyzing context...` first, an answer exactly when it ends the loop, links only after a search. The history only grows. |
| Research.AnswerTailShape | backend/agent.py:180-183 | An answering iteration ends with `Formulating final answer...` and then its only answer. |
| Research.TurnShape | backend/agent.py:150-214 | Every iteration is well formed, even one whose completion raises, and the history only grows. |
| Research.TurnerShaped | backend/agent.py:150-214 | Every iteration the agent can take is well formed. |
| Research.IterateShape | backend/agent.py:147-214 | The loop runs at most fifteen iterations, each with one `Analyzing context...`. It answers at most once, as its last event. It runs all fifteen when it neither answers nor raises. |
| Research.OpenShape | backend/agent.py:145-214 | Before its final step, the run opens with `Initiating deep research...`. It has one `Analyzing context...` per iteration, an answer only when the loop answered and then as its last event, and links only after a search. |
| Research.FinishShape | backend/agent.py:216-219 | The final step as written keeps the loop's events. It adds `Max research depth reached.` and, unless the completion raises, one more answer. |
| Research.StartShape | backend/agent.py:145-219 | For a loop of the proved shape, with the intended final step, the run opens with `Initiating deep research...`. It has one `Analyzing context...` per iteration, at most fifteen, and links only after a search. Unless it raised, it ends with its only answer. It differs from the run as written only when the fifteenth iteration answered. |
| Research.StartShapeAsWritten | backend/agent.py:216-219 | As written, a run that did not raise ends with an answer. That answer is its only one except when the fifteenth iteration answered, and then there are two. |
| Research.RunShape | backend/agent.py:140-219 | For any well-formed iterations, the run is shaped as `StartShape` says. This is for the intended final step (see ## Findings). |
| Research.ResearchSpec | backend/agent.py:113-219 | When opening the tool session raises (lines 114-119), the run raises having yielded nothing. Otherwise the agent's run opens with `Initiating deep research...`. It yields one `Analyzing context...` per iteration, at most fifteen, and links only right after a `search_web` call. Unless an exception ends it, it ends with its one and only answer. This is for the intended final step and join (see ## Findings). As written, a run whose fifteenth iteration answers has two answers (`Research.AnswerOnLastIteration`). |
| Research.AnswerOnLastIteration | backend/agent.py:216-219 | As written: when the fifteenth iteration answers, the run also yields `Max research depth reached.` and a second answer. |
| Research.EscapedJoinMergesLines | backend/agent.py:193 | As written: two text parts are joined with a backslash and `n`, not a line break. The result is one line. |
| Research.ResultTextIntendedSplits | backend/agent.py:193 | With the intended line-break separator, which the model's tool step uses, single-line text parts split back into the parts. |
| SseServer.Frames | backend/api.py:32-37 | One `message` record per event. |
| SseServer.FramesSpec | backend/api.py:32-37 | Each event becomes, at its own position, a `message` record carrying its JSON text. |
| SseServer.FramesNamed | backend/api.py:34-35 | The event records are all named `message`. |
| SseServer.EventStream | backend/api.py:30-50 | The stream has one record more than there are events. |
| SseServer.EventStreamSpec | backend/api.py:30-50 | The events come in order as `message` records, followed by exactly one terminal record. That record is a single `done` when the run finished, or a single `error` carrying the traceback when it raised, never both. |
| SseServer.FailureKeepsPrefix | backend/api.py:43-50 | The records sent before an exception are the same as in a run that finished. |
| SseServer.RunStream | backend/api.py:30-50 | A run that finished with an answer streams that answer just before `done`. |
| SseServer.ServeSpec | backend/api.py:30-50 | For a request: the agent's events arrive in order. When the tool session fails to open, the stream is the `error` record alone. A run that did not raise ends with its one and only answer and then the only `done`. A run that raised ends with the only `error` and has no `done`. This is over the agent with the intended final step and join (see ## Findings). As written, a run whose fifteenth iteration answers streams two answers. |

## Left out

- The chat-completion endpoint, the MCP tool session and `mcp_server.py` are values the model receives. Their behaviour is arbitrary. A session that fails to open is the flag `setupFails` of `Research.Services`, and the run then raises before its first event. A raising completion is `None`. A raising tool call carries its error text.
- The tool-schema decoration in `research` (agent.py:118-136) and `bind_tools` are left out. They only describe tools to the endpoint and do not change the events or the conversation.
- The system prompt's wording is a parameter of `InitialHistory`, and the sampling parameters (agent.py:62-67) are left out.
- `print` of tool and server errors is left out, since it is output only.
- Dates and ids (`Date.now()` in App.tsx:32 and 41) are parameters of `HandleSubmit`.
- Research.CallsToProcess: a mock call whose `name` is not a JSON string is modelled as the run raising. The source would pass the non-string name on to the tool session, whose behaviour with it is not modelled.
- Research.LinksOf: a search result whose title or url is not a string is carried as its JSON value.
- Research.ToolStep: a tool's non-text result parts are dropped, as in the source. Their content is not modelled.
- SseServer.Serve: the traceback text is a parameter, and `json.dumps` is a total function value. The bytes `EventSourceResponse` writes are not modelled.
- StreamClient.StreamChat: exceptions thrown by the page's own callbacks inside the reader (api.ts:44-58) are not modelled. The model's callbacks are records of the calls made.
- Conversation.ChatApp.OnDone and Conversation.ChatApp.OnError: the source mutates the message object shared with the previous state (App.tsx:81 and App.tsx:92). The model builds a new list, so that aliasing is not captured.
- Typewriter.DelayMs: the value of `Math.random()` is a parameter in [0, 1). Timers do not run on a clock, so the delays only order and bound the pauses.
- Text.IsJsSpace: characters are Unicode scalar values. JavaScript's UTF-16 code units, and surrogate halves in particular, are not modelled, and neither are the byte boundaries of `TextDecoder`.
- ResearchIndicator.ArgsPreview: takes the JSON text of the arguments as given. `JSON.stringify(undefined)` is not modelled.
- Motion, markdown rendering, scrolling and the test script (`backend/test_agent.py`) are presentation or tooling. They are not modelled.

## Findings

| source | as written | input that shows it | evidently intended | confidence | as-written member | corrected member |
|---|---|---|---|---|---|---|
| backend/agent.py:216-219 | After the loop, `iteration >= max_iterations` also holds when the fifteenth iteration answered and broke out. | The completion makes tool calls for fourteen iterations, then answers on the fifteenth. | Report the depth limit and ask for a final answer only when the loop ran out without answering. | not executed | Research.AnswerOnLastIteration | Research.ResearchSpec |
| backend/agent.py:193 | The text parts of a tool result are joined with `"\\n"`, a backslash followed by `n`. | A tool returns two text parts, `a` and `b`. The result is `a\nb` with a literal backslash, all on one line. | Join the parts with a line break. | not executed | Research.EscapedJoinMergesLines | Research.ResultTextIntendedSplits |

The model keeps both halves of each row:

- **As written:** `Research.FinishAsWritten` and `Research.ResultText` model the lines above as they are written. The as-written lemmas exhibit the discrepancy.
- **Corrected:** `Research.Finish` (used by `Research.Research`, `Research.Conclude` and so by the server model) and `Research.ResultTextIntended` (used by `Research.ToolStep`) are the corrected definitions. The rest of the model runs on them.

The two final steps differ only when the fifteenth iteration answers (`Research.StartShape`). The two joins agree for a result with at most one text part.
