# Prototype builder: generation recovery, event streams and undo/redo

This project models the core of an AI prototype builder. A user describes a web
page in a chat, an LLM answers with HTML, CSS and JS, and the editor keeps an
undoable history of every change. The model covers these parts:

- **Recovering structured replies from LLM text.**
  - `JSONParser.parseWithRecovery`, with its truncation repair `completeJSON`
    and the required-field check.
  - The brace-depth scan in the streaming service's `parseAgentResponse`.
  - The three-strategy parser, action choice and suggestion extraction of the
    non-streaming chat service.
- **The AG-UI event streams.**
  - The streaming service emits RunStarted, message events, a `code_generated`
    custom event, then RunFinished or RunError.
  - The mock route emits the same kind of stream from cached or built-in
    payloads.
  - The chat store reduces the streamed events into messages, editor code and
    history.
- **The undo/redo engine.**
  - The editor store holds the code, the selection and the viewport.
  - Commands carry before/after snapshots or a single-file edit.
  - The history store keeps two stacks bounded at 50.
  - The history timeline jumps to a point by repeated undo or redo.
- **Helpers.**
  - Retry backoff, the prompt-strategy optimiser, timeouts and error-message
    mapping.
  - Agent and chat prompt building.
  - Surgical edit classification and application.
  - The response cache: file names, keywords, scores and best match.
  - Project-list updates with `retryRequest` and auto-save.
  - The SQL SET-clause builder of `updateProject`.
  - LLM config defaults and the provider cache.
  - The visual editor's element path.
  - The keyboard shortcut table and the mode store.

There is one Dafny module per source file, with one exception:
`chat-stream.service.ts` is split across three modules.


| Dafny file | models |
|---|---|
| `json_parser.dfy` | `json-parser.ts` |
| `chat_stream.dfy` (module `BraceScan`) | the `parseAgentResponse` scan of `chat-stream.service.ts` |
| `stream_service.dfy` (module `ChatStream`) | the event traces of `chat-stream.service.ts` |
| `ag_ui.dfy` (module `AgUi`) | the AG-UI event type, the SSE sink and the fixed-size chunking loop of `chat-stream.service.ts` |

The shared modules `Wrappers`, `Strings`, `JsValues` and `ChatTypes` hold
Option and Result, ASCII string helpers, JavaScript values with their
truthiness and `String()` conversion, and the request and message shapes.

The model handles outside effects this way:

- **Decoding.** `JSON.parse` is a decoder parameter, and every lemma holds for
  every decoder.
- **The LLM provider.** The provider is a record of two functions: the complete
  reply and the optional streamed chunks.
- **Clock, ids and the network.** Clock readings and generated ids are
  parameters. HTTP responses are given as values.
- **Server-sent events.** The SSE response is the `AgUi.EventSink` class. Its
  `events` sequence grows as events are sent, and an `ended` flag records the
  end of the response.
- **The file system and the database.** The cache directory is a sequence of
  files. The database is a sequence of rows.

Stateful stores are classes whose methods are proved against specification
functions:

- A method's `ensures` ties the new state to a function of the old state.
- The lemmas beside the function state what the source promises of it.

## Model

| member | source | states |
|---|---|---|
| JsonParser.CleanContent | backend/src/utils/json-parser.ts:21-27 | an unfenced reply is only trimmed; the result never starts or ends with white space; a fenced reply leaves a piece of the trimmed reply that lies after its opening backticks and is at least three characters shorter (FencedBodyRecovered gives the exact body) |
| JsonParser.FencedBodyRecovered | backend/src/utils/json-parser.ts:24-27 | a ```` ```json ```` fenced body that is already trimmed comes back exactly |
| JsonParser.OpeningFenceDropped | backend/src/utils/json-parser.ts:26 | the opening-fence step removes exactly one leading fence and keeps the rest |
| JsonParser.ClosingFenceDropped | backend/src/utils/json-parser.ts:26 | the closing-fence step removes exactly one trailing fence and keeps the rest |
| JsonParser.ClosedQuote | backend/src/utils/json-parser.ts:96-123 | the escape-aware quote scan: a backslash skips the next character, each unescaped quote toggles the in-string flag |
| JsonParser.CompletionShape | backend/src/utils/json-parser.ts:86-137 | the completed text starts with the input; the suffix is one `"` exactly when the scan ends inside a string, then max(count('{') − count('}'), 0) closing braces; wasModified holds exactly when the suffix is non-empty |
| JsonParser.CompletionBalancesBraces | backend/src/utils/json-parser.ts:125-133 | after completion the `{` and `}` counts are equal whenever the input had more `{`; braces inside strings are counted too |
| JsonParser.CompletionCount | backend/src/utils/json-parser.ts:126-132 | the number of braces appended is the surplus of `{` over `}` in the whole text |
| JsonParser.CompletionClosesString | backend/src/utils/json-parser.ts:116-123 | when the scan ends inside a string and no backslash is pending, the completed text's scan ends outside every string |
| JsonParser.EscapedCutNotClosed | backend/src/utils/json-parser.ts:99-121 | a text cut right after a backslash inside a string gets a quote appended that the scan treats as escaped, so the result still ends inside a string |
| JsonParser.DanglingBackslashNotClosed | backend/src/utils/json-parser.ts:99-121 | the concrete case `{"a":"b\` completes to `{"a":"b\"}`, whose quote scan still ends in a string |
| JsonParser.CompleteJson | backend/src/utils/json-parser.ts:86-138 | the character loop returns exactly the completion specified by `Completion`, whose shape the lemmas above give |
| JsonParser.MissingFields | backend/src/utils/json-parser.ts:143-154 | the result is the ordered sub-list of html, css, js whose members are absent or falsy |
| JsonParser.FalsyFields | backend/src/utils/json-parser.ts:143-154 | a field is reported exactly when it is required and its value is absent or falsy |
| JsonParser.EmptyStringIsMissing | backend/src/utils/json-parser.ts:148 | a required field holding '' is reported missing |
| JsonParser.CheckRequiredFields | backend/src/utils/json-parser.ts:143-154 | the push loop returns `MissingFields` |
| JsonParser.ParseWithRecovery | backend/src/utils/json-parser.ts:20-81 | cleaned text not starting with `{` fails with isPartial false, no missing fields and the fixed error; a direct decode succeeds with isPartial false; otherwise the completed text decides: success with isPartial = wasModified, or failure with isPartial true and no missing fields; success holds exactly when data is present |
| JsonParser.NoDecodeUnlessObject | backend/src/utils/json-parser.ts:29-36 | the outcome does not depend on the decoder when the cleaned text does not start with `{` |
| JsonParser.PartialOnlyAfterRepair | backend/src/utils/json-parser.ts:56-72 | a successful result is partial only if the direct decode failed and completion changed the text |
| BraceScan.Step | backend/src/services/chat-stream.service.ts:406-435 | one scan step: a pending escape swallows the character, a backslash sets it, a quote toggles the string flag, and depth moves only for braces outside strings |
| BraceScan.StepTracksQuotesLikeCompletion | backend/src/services/chat-stream.service.ts:406-422 | the brace scan's string flag follows the same rule as the completion scan of json-parser.ts |
| BraceScan.ObjectEnd | backend/src/services/chat-stream.service.ts:406-435 | the scan's result is −1 or a cut length between 1 and the text's length |
| BraceScan.ObjectEndCharacterized | backend/src/services/chat-stream.service.ts:406-435 | the end is the first index after which depth returns to 0, or −1 exactly when depth never returns to 0 |
| BraceScan.EndFromCharacterized | backend/src/services/chat-stream.service.ts:406-435 | the scan resumed from any prefix state finds the first later zero crossing |
| BraceScan.ScanObjectEnd | backend/src/services/chat-stream.service.ts:401-435 | the loop with early exit returns `ObjectEnd` |
| BraceScan.JsonText | backend/src/services/chat-stream.service.ts:437 | the decoded text is the prefix up to the end when there is one, otherwise the whole cleaned text |
| BraceScan.TrailingTextDropped | backend/src/services/chat-stream.service.ts:429-437 | text after the first balanced object is not part of what is decoded |
| BraceScan.JsonTextBalanced | backend/src/services/chat-stream.service.ts:429-437 | a cut prefix ends with `}` and its scan ends at depth 0 outside any string |
| BraceScan.ParseAgentResponse | backend/src/services/chat-stream.service.ts:390-452 | cleaned text not starting with `{` fails with the fixed message and is not decoded; otherwise the decoder receives the prefix ending at the first `}` that returns the depth to zero, so text after it is never seen, or the whole cleaned text when no `}` does |
| BraceScan.NoDecodeUnlessObject | backend/src/services/chat-stream.service.ts:391-399 | without a leading `{` the outcome is the same for every decoder |
| AgUi.ChunksConcat | backend/src/services/chat-stream.service.ts:365-377 | the fixed-size chunks concatenate back to the whole text |
| AgUi.ChunksSizes | backend/src/services/chat-stream.service.ts:365-367 | every chunk is non-empty and at most the chunk size, and all but the last have exactly that size |
| AgUi.ChunksCount | backend/src/services/chat-stream.service.ts:366 | the number of chunks is the length divided by the size, rounded up |
| AgUi.ChunkedDeltasDeliverText | backend/src/services/chat-stream.service.ts:365-377 | the deltas of the chunked content events for a message spell the text |
| AgUi.ContentEvents | backend/src/services/chat-stream.service.ts:369-374 | one content event per chunk, in order, all for the same message |
| AgUi.SendChunked | backend/src/services/chat-stream.service.ts:365-377 | the chunk loop appends exactly `ContentEvents` of the chunks to the sink |
| AgUi.EventSink.constructor | backend/src/services/chat-stream.service.ts:20-27 | the SSE response that `sendEvent` writes to starts with no events and not ended |
| AgUi.EventSink.Send | backend/src/services/chat-stream.service.ts:20-27 | an event is appended to the open response and nothing else changes |
| AgUi.EventSink.End | backend/src/services/chat-stream.service.ts:60-72 | the response is ended and the sent events are kept |
| ChatStream.RunErrorMessage | backend/src/services/chat-stream.service.ts:68 | an Error's message, or 'Unknown error' for any other thrown value |
| ChatStream.BuildMessages | backend/src/services/chat-stream.service.ts:352-359 | system prompt first, the history in order, the user prompt last |
| ChatStream.HistoryMessages | backend/src/services/chat-stream.service.ts:354-357 | each history message keeps its content; user stays user and every other role becomes assistant |
| ChatStream.OnlyFirstMessageIsSystem | backend/src/services/chat-stream.service.ts:352-359 | no message after the first has the system role |
| ChatStream.PlanTextThrows | backend/src/services/chat-stream.service.ts:114-131 | building the plan text throws exactly for a null plan or a components, features or techStack value that is neither an array nor undefined |
| ChatStream.PlanTextFraming | backend/src/services/chat-stream.service.ts:114-131 | the plan text opens with the header and the understanding and closes with the fixed footer |
| ChatStream.PlanValue | backend/src/services/chat-stream.service.ts:106-153 | an undecodable plan reply continues as a null plan |
| ChatStream.PlanDelta | backend/src/services/chat-stream.service.ts:114-153 | an undecodable plan reply sends the fallback generating delta |
| ChatStream.PlanFailureNotFatal | backend/src/services/chat-stream.service.ts:114-153 | after a failed plan decode the fallback delta is sent, a code prompt is still built, and the code message starts |
| ChatStream.NumberedListText | backend/src/services/chat-stream.service.ts:124-126 | `.map` on a member throws exactly when it is neither an array nor undefined; undefined renders as 'undefined' |
| ChatStream.SuggestionsCases | backend/src/services/chat-stream.service.ts:253-260 | falsy or empty suggestions add nothing; an array adds the header and numbered lines; a non-empty string throws; an object throws exactly when its `length` member converts to a positive number; a number or boolean adds nothing |
| ChatStream.CoercedLengthThrows | backend/src/services/chat-stream.service.ts:257-260 | suggestions `{"length": "5"}` or `{"length": true}` pass `length > 0` and throw at `.map` |
| ChatStream.SummaryShape | backend/src/services/chat-stream.service.ts:253-265 | the summary exists exactly when the suggestions render; it opens with the header and the explanation (default text when falsy) and ends with the tip |
| ChatStream.CodeDefaults | backend/src/services/chat-stream.service.ts:283-294 | css, js and explanation default to '' and suggestions to []; string members are passed through |
| ChatStream.Apology | backend/src/services/chat-stream.service.ts:305-325 | the apology is a complete three-event message |
| ChatStream.GenerationApologises | backend/src/services/chat-stream.service.ts:295-325 | a reply that does not parse or has falsy html yields exactly the apology, no cache entry and no error |
| ChatStream.CodeGeneratedOnlyWithHtml | backend/src/services/chat-stream.service.ts:243-294 | a `code_generated` event with some code is sent exactly when the reply parses with truthy html, its summary renders, and that code is `CodeOf` the parsed reply |
| ChatStream.Generation | backend/src/services/chat-stream.service.ts:234-325 | generation never throws, and a saved cache entry is keyed by the user's message |
| ChatStream.ReportedMessageEvents | backend/src/services/chat-stream.service.ts:262-294 | the report holds only message events, and its code event carries the cached code exactly when a summary exists |
| ChatStream.DotsAreProgress | backend/src/services/chat-stream.service.ts:209-219 | every event sent while chunks arrive is a '.' progress delta of the code message |
| ChatStream.Dots | backend/src/services/chat-stream.service.ts:209-219 | at most one progress delta per received chunk |
| ChatStream.ReceiveChunks | backend/src/services/chat-stream.service.ts:205-219 | the chunk callback loop appends `Dots` to the sink and accumulates the chunks' text |
| ChatStream.StreamPhase | backend/src/services/chat-stream.service.ts:202-225 | without a streaming call the content is the plain completion and no events are sent |
| ChatStream.StreamPhaseDots | backend/src/services/chat-stream.service.ts:202-225 | the stream phase only sends progress deltas |
| ChatStream.StreamCall | backend/src/services/chat-stream.service.ts:202-225 | the method sends `StreamPhase`'s events and returns its content |
| ChatStream.CodePhase | backend/src/services/chat-stream.service.ts:187-325 | the code message starts with its start event and the generating delta; a saved entry means no error and carries the user's message |
| ChatStream.CodePhaseThrowsOnlyFromLlm | backend/src/services/chat-stream.service.ts:202-325 | the code phase throws exactly when the LLM call fails, and an unparseable reply ends in the apology |
| ChatStream.AfterPlan | backend/src/services/chat-stream.service.ts:106-160 | after the plan reply the plan message gets its delta and end event, then code generation follows |
| ChatStream.AgentTrace | backend/src/services/chat-stream.service.ts:79-326 | agent mode opens the plan message with the analyzing delta |
| ChatStream.ChatTrace | backend/src/services/chat-stream.service.ts:331-385 | chat mode saves nothing and throws exactly when the completion fails |
| ChatStream.ChatDeliversReply | backend/src/services/chat-stream.service.ts:361-377 | on success the deltas of the chat message spell the whole LLM reply |
| ChatStream.ModeOutcome | backend/src/services/chat-stream.service.ts:46-50 | chat mode never writes the cache |
| ChatStream.Terminal | backend/src/services/chat-stream.service.ts:52-70 | RunFinished when nothing was thrown, RunError when something was |
| ChatStream.RunTrace | backend/src/services/chat-stream.service.ts:33-74 | the trace starts with RunStarted for the thread and run |
| ChatStream.RunFraming | backend/src/services/chat-stream.service.ts:37-73 | RunStarted first; the last event is RunFinished exactly when the mode returned and RunError exactly when it threw; everything between is a message event |
| ChatStream.AgentMessageEvents | backend/src/services/chat-stream.service.ts:79-326 | agent mode sends only message events |
| ChatStream.ChatMessageEvents | backend/src/services/chat-stream.service.ts:331-385 | chat mode sends only message events |
| ChatStream.ProcessChatMode | backend/src/services/chat-stream.service.ts:331-385 | the method sends `ChatTrace`'s events and reports its error |
| ChatStream.ProcessCode | backend/src/services/chat-stream.service.ts:187-325 | the method sends `CodePhase`'s events and returns its cache entry and error |
| ChatStream.ProcessAfterPlan | backend/src/services/chat-stream.service.ts:106-160 | the method sends `AfterPlan`'s events and returns its cache entry and error |
| ChatStream.ProcessAgentMode | backend/src/services/chat-stream.service.ts:79-326 | the method sends `AgentTrace`'s events and returns its cache entry and error |
| ChatStream.ProcessMode | backend/src/services/chat-stream.service.ts:46-50 | the method dispatches on the mode and sends `ModeOutcome`'s events |
| ChatStream.ProcessStreamingMessage | backend/src/services/chat-stream.service.ts:33-74 | the sink receives exactly `RunTrace` and is ended; the cache entry is the mode's |
| ChatService.DetermineAgentAction | backend/src/services/chat.service.ts:173-184 | 'create' exactly when there is no current code; 'fix' exactly when there is code and the lowercased message contains fix, bug or error; 'modify' otherwise |
| ChatService.ActionIgnoresCase | backend/src/services/chat.service.ts:178 | upper-casing the message does not change the action |
| ChatService.RepairBalances | backend/src/services/chat.service.ts:200-213 | text without surplus `{` is left alone; otherwise the repair keeps the text as a prefix, balances the braces and makes the quote count even |
| ChatService.DirectText | backend/src/services/chat.service.ts:194-218 | strategy 1 applies exactly when the trimmed text starts with `{` |
| ChatService.FirstObject | backend/src/services/chat.service.ts:238-243 | strategy 3 applies exactly when the text has a `{`, and takes the suffix from the first one |
| ChatService.ParseAgentResponse | backend/src/services/chat.service.ts:189-269 | the parse fails, with the fixed message, exactly when all three strategies fail to decode; a decoded strategy 1 wins |
| ChatService.ClosedObjectDecodedAsIs | backend/src/services/chat.service.ts:194-218 | a trimmed text already closed by `}` that decodes is returned unrepaired |
| ChatService.FencedBlockBeforeObject | backend/src/services/chat.service.ts:220-233 | when strategy 1 fails and the ```` ```json ```` block decodes, the block's value is returned |
| ChatService.RawReplyFallback | backend/src/services/chat.service.ts:129-143 | an unparseable reply or one without html, css and js becomes raw html with empty css and js, the fixed explanation and the two fixed suggestions |
| ChatService.DecodedReply | backend/src/services/chat.service.ts:115-121 | parsed fields default to '' and the default explanation; suggestions are used only when they are an array |
| ChatService.Candidates | backend/src/services/chat.service.ts:278-285 | every candidate has a trimmed length strictly between 10 and 100 |
| ChatService.CandidatesFromBulletLines | backend/src/services/chat.service.ts:278-285 | every candidate is the trimmed remainder of a line that starts with a bullet, digit or '.' followed by whitespace |
| ChatService.Suggestions | backend/src/services/chat.service.ts:288 | at most three suggestions, each of length 11 to 99 |
| ChatService.SuggestionsArePrefix | backend/src/services/chat.service.ts:274-289 | the suggestions are the first candidates in line order |
| ChatService.ExtractSuggestions | backend/src/services/chat.service.ts:274-289 | the push loop returns `Suggestions` |
| ChatService.ChatModeResponse | backend/src/services/chat.service.ts:43-80 | a chat answer carries the reply, chat mode, no code, no actions and at most three suggestions |
| ChatService.AgentModeResponse | backend/src/services/chat.service.ts:85-168 | an agent answer carries the code, its explanation as content, its suggestions, and one code-update action with the same code |
| ChatService.ProcessMessage | backend/src/services/chat.service.ts:18-38 | a successful answer has the request's mode; a chat-mode success is `ChatModeResponse` of the chat completion, and an agent-mode success is `AgentModeResponse` of the agent completion |
| ChatService.ProcessMessageFails | backend/src/services/chat.service.ts:18-38 | the call fails exactly when the LLM call of its mode fails, with that error |
| ChatService.ChatAnswerIsReply | backend/src/services/chat.service.ts:43-80 | a chat answer's content is the LLM reply and its suggestions are extracted from it |
| Retry.AnyRetryableIff | backend/src/utils/retry-manager.ts:30-37 | some retryable entry, lowercased, occurs in the lowercased message |
| Retry.Delay | backend/src/utils/retry-manager.ts:40-44 | the delay is min(baseDelay·2^attempt, maxDelay), so it never exceeds maxDelay |
| Retry.DelayNeverDecreases | backend/src/utils/retry-manager.ts:40-49 | the delay does not decrease from one attempt to the next |
| Retry.DocumentedDelays | backend/src/utils/retry-manager.ts:41-43 | base 2000 and cap 16000 give 2000, 4000, 8000, then 16000 from attempt 3 on |
| Retry.RetryIgnoresCase | backend/src/utils/retry-manager.ts:30-37 | the message's letter case does not change the decision |
| Retry.RetryManager.constructor | backend/src/utils/retry-manager.ts:19-21 | the config is stored and attempt starts at 0 |
| Retry.RetryManager.ShouldRetry | backend/src/utils/retry-manager.ts:23-38 | false once attempt ≥ maxAttempts; below that, true exactly when a lowercased retryable entry occurs in the lowercased message |
| Retry.RetryManager.GetDelay | backend/src/utils/retry-manager.ts:40-44 | the delay of the current attempt |
| Retry.RetryManager.IncrementAttempt | backend/src/utils/retry-manager.ts:46-49 | attempt grows by exactly one |
| Retry.RetryManager.GetAttemptNumber | backend/src/utils/retry-manager.ts:51-53 | attempt + 1 |
| Retry.RetryManager.GetTotalAttempts | backend/src/utils/retry-manager.ts:55-57 | the configured maxAttempts |
| Retry.RetryManager.Reset | backend/src/utils/retry-manager.ts:59-61 | attempt is 0 again |
| PromptOptimizer.Hits | backend/src/utils/prompt-optimizer.ts:73-87 | at most one hit per keyword |
| PromptOptimizer.NoHits | backend/src/utils/prompt-optimizer.ts:73-87 | a keyword list scores nothing exactly when none of its keywords occurs |
| PromptOptimizer.Complexity | backend/src/utils/prompt-optimizer.ts:68-107 | the score, in tenths, lies in 0..10 |
| PromptOptimizer.AddHits | backend/src/utils/prompt-optimizer.ts:76-87 | the forEach loop adds the weight once per distinct keyword found |
| PromptOptimizer.AssessComplexity | backend/src/utils/prompt-optimizer.ts:68-107 | the accumulating method returns `Complexity` |
| PromptOptimizer.SelectStrategy | backend/src/utils/prompt-optimizer.ts:18-63 | retry ≥ 2 gives minimal and retry 1 concise; a first attempt picks minimal above 7 tenths, concise above 4, else standard; standard carries 6144 tokens, the others 8192 |
| PromptOptimizer.PlainRequestIsStandard | backend/src/utils/prompt-optimizer.ts:55-99 | a keyword-free request of at most 50 words scores 0 and gets standard |
| PromptOptimizer.SevenTenthsIsConcise | backend/src/utils/prompt-optimizer.ts:41-87 | three complex keywords and one feature keyword score exactly 7 tenths, which selects concise |
| PromptOptimizer.TierFollowsScore | backend/src/utils/prompt-optimizer.ts:41-62 | a higher score never gets a lighter tier |
| AgentPrompts.PlanPrompt | backend/src/llm/prompts/agent-mode.ts:130-146 | the plan prompt pairs the plan system prompt with a user prompt that opens with the request |
| AgentPrompts.CreatePlanContext | backend/src/llm/prompts/agent-mode.ts:149-154 | a missing or falsy plan adds nothing |
| AgentPrompts.CreatePrompt | backend/src/llm/prompts/agent-mode.ts:148-193 | the create prompt exists exactly when the plan context renders, and opens with the description |
| AgentPrompts.ConcisePrompt | backend/src/llm/prompts/agent-mode.ts:245-262 | without a plan, the concise prompt is the fixed line with the description and the instructions |
| AgentPrompts.MinimalPrompt | backend/src/llm/prompts/agent-mode.ts:264-277 | the minimal prompt opens with the description |
| AgentPrompts.ModifyPrompt | backend/src/llm/prompts/agent-mode.ts:195-206 | the modify prompt opens with the request |
| AgentPrompts.FixPrompt | backend/src/llm/prompts/agent-mode.ts:208-219 | the fix prompt opens with the issue |
| AgentPrompts.RetryAttemptOf | backend/src/llm/prompts/agent-mode.ts:226 | a missing context or retry defaults to 0 |
| AgentPrompts.StrategyOf | backend/src/llm/prompts/agent-mode.ts:227 | a missing context or strategy defaults to 'standard' |
| AgentPrompts.SelectPromptKind | backend/src/llm/prompts/agent-mode.ts:231-237 | minimal exactly when the strategy is minimal or retry ≥ 2; otherwise concise exactly when the strategy is concise or retry ≥ 1; otherwise create |
| AgentPrompts.GenerateAgentPrompt | backend/src/llm/prompts/agent-mode.ts:221-243 | the system prompt is always the agent one; the minimal kind gives the minimal prompt; the concise and create kinds give their builder's prompt, and fail exactly when that builder throws |
| AgentPrompts.NoContextUsesCreate | backend/src/llm/prompts/agent-mode.ts:221-243 | without context the create prompt is used, with no plan text |
| AgentPrompts.SecondRetryIsMinimal | backend/src/llm/prompts/agent-mode.ts:231-232 | retry ≥ 2 selects the minimal prompt whatever the strategy and plan |
| AgentPrompts.MinimalIgnoresPlan | backend/src/llm/prompts/agent-mode.ts:264-277 | the minimal prompt does not depend on the plan |
| AgentPrompts.ConciseReadsOnlyComponents | backend/src/llm/prompts/agent-mode.ts:245-246 | the concise prompt depends on the plan only through its components |
| AgentPrompts.ConciseListsComponents | backend/src/llm/prompts/agent-mode.ts:245-262 | string components are listed by name in the concise prompt |
| AgentPrompts.CreateReadsPlanMembers | backend/src/llm/prompts/agent-mode.ts:149-154 | the create prompt depends on the plan only through components, features and dataModel |
| AgentPrompts.FalsyPlanAddsNothing | backend/src/llm/prompts/agent-mode.ts:149-154 | a falsy plan gives the same prompts as no plan |
| AgentPrompts.CodeExcerptOnly | backend/src/llm/prompts/agent-mode.ts:195-219 | the modify and fix prompts see only the first 2000 characters of the code |
| AgentPrompts.ShortCodeEmbeddedWhole | backend/src/llm/prompts/agent-mode.ts:195-206 | code of at most 2000 characters is embedded whole |
| AgentPrompts.JoinedText | backend/src/llm/prompts/agent-mode.ts:151-153 | `.join` on an undefined or null member renders 'undefined', on an array succeeds, and on anything else throws |
| Timeout.TimeoutFor | backend/src/utils/timeout-manager.ts:52-55 | min(initial + retry·perRetry, maximum), never above the maximum |
| Timeout.TimeoutGrows | backend/src/utils/timeout-manager.ts:52-55 | a later retry never gets a shorter timeout |
| Timeout.FreshActivityIsActive | backend/src/utils/timeout-manager.ts:28-38 | right after activity there is no timeout; later, a timeout exactly when the elapsed time exceeds the window |
| Timeout.TimeoutManager.constructor | backend/src/utils/timeout-manager.ts:20-23 | the config is stored and the last activity is the construction time |
| Timeout.TimeoutManager.RecordActivity | backend/src/utils/timeout-manager.ts:28-30 | the last activity becomes now |
| Timeout.TimeoutManager.ShouldTimeout | backend/src/utils/timeout-manager.ts:35-47 | true exactly when now − lastActivity exceeds the window |
| Timeout.TimeoutManager.GetTimeout | backend/src/utils/timeout-manager.ts:52-55 | the timeout for that retry |
| Timeout.TimeoutManager.GetTimeSinceLastActivity | backend/src/utils/timeout-manager.ts:60-62 | whole seconds since the last activity, rounded down |
| Timeout.TimeoutManager.Reset | backend/src/utils/timeout-manager.ts:67-69 | the last activity becomes now |
| ErrorMessages.Classify | backend/src/utils/error-message-mapper.ts:11-42 | a chosen group does match the lowercased message |
| ErrorMessages.ClassifyIsFirstMatch | backend/src/utils/error-message-mapper.ts:11-42 | no group is chosen exactly when none matches; a chosen group is preceded only by groups that do not match |
| ErrorMessages.EarliestGroupWins | backend/src/utils/error-message-mapper.ts:13-30 | a message matching a group gets the text of the earliest matching group |
| ErrorMessages.ClassifiedText | backend/src/utils/error-message-mapper.ts:11-42 | a classified message gets its group's text |
| ErrorMessages.GenericQuotesMessage | backend/src/utils/error-message-mapper.ts:45 | an unmatched message gets the generic text, which quotes the original message |
| ErrorMessages.TimeoutMessages | backend/src/utils/error-message-mapper.ts:13-18 | the retrying text, numbered retryAttempt+1 of maxRetries, while a non-zero attempt is below the maximum; otherwise the timed-out text |
| ErrorMessages.RetryNumbering | backend/src/utils/error-message-mapper.ts:13-18 | attempt 1 of 3 reads "2/3"; attempt 0 reads the timed-out text with 3 |
| ErrorMessages.NothingCollected | backend/src/utils/error-message-mapper.ts:50-78 | no matching group gives no suggestions |
| ErrorMessages.CollectedFromMatchingGroups | backend/src/utils/error-message-mapper.ts:48-79 | every suggestion comes from a group that matches |
| ErrorMessages.CollectedFive | backend/src/utils/error-message-mapper.ts:52-76 | the suggestions are the five groups' lists appended in source order, each when it matches |
| ErrorMessages.FirstGroupsCollected | backend/src/utils/error-message-mapper.ts:48-79 | the first n steps of the push sequence collect the lists of the first n groups that match |
| ErrorMessages.GetSuggestions | backend/src/utils/error-message-mapper.ts:48-79 | the push sequence returns `Suggestions` |
| ErrorMessages.SuggestionsAccumulate | backend/src/utils/error-message-mapper.ts:52-62 | a message matching the first two groups gets both lists, in order |
| Editor.EditorStore.constructor | frontend/src/store/useEditorStore.ts:27-33 | empty code, no selection, desktop viewport |
| Editor.EditorStore.SetCode | frontend/src/store/useEditorStore.ts:35-46 | replaces the code and nothing else |
| Editor.EditorStore.UpdateHtml | frontend/src/store/useEditorStore.ts:48-55 | changes only html |
| Editor.EditorStore.UpdateCss | frontend/src/store/useEditorStore.ts:57-64 | changes only css |
| Editor.EditorStore.UpdateJs | frontend/src/store/useEditorStore.ts:66-73 | changes only js |
| Editor.EditorStore.SetSelectedElement | frontend/src/store/useEditorStore.ts:75 | changes only the selection |
| Editor.EditorStore.SetViewport | frontend/src/store/useEditorStore.ts:77 | changes only the viewport |
| Editor.EditorStore.ClearCode | frontend/src/store/useEditorStore.ts:79-82 | empties the code and the selection and keeps the viewport |
| Commands.SnapshotOf | frontend/src/lib/commands.ts:11-20 | the snapshot copies html, css, js, selection and viewport |
| Commands.ApplySnapshot | frontend/src/lib/commands.ts:25-34 | a snapshot taken right after applying `s` equals `s` |
| Commands.VisualEditCommand | frontend/src/lib/commands.ts:39-72 | a visual-edit command with the given description; execute restores the after-snapshot and undo the before-snapshot, from any state |
| Commands.AgentGenerationCommand | frontend/src/lib/commands.ts:133-166 | an agent-generation command described by `AgentDescription` of the prompt; execute restores the after-snapshot and undo the before-snapshot |
| Commands.AgentDescriptionShape | frontend/src/lib/commands.ts:150 | "Generated: " plus the first 50 prompt characters, with "..." exactly when the prompt is longer |
| Commands.ComponentInsertionCommand | frontend/src/lib/commands.ts:171-204 | type COMPONENT_ADD and description "Added component: " + name; execute restores the after-snapshot and undo the before-snapshot |
| Commands.SurgicalEditCommand | frontend/src/lib/commands.ts:77-128 | a surgical-edit command with the given description; execute writes the after-content and undo the before-content into its one file, keeping the rest of the state |
| Commands.WithContent | frontend/src/lib/commands.ts:114-127 | only the named file's field takes the content; the other fields, the selection and the viewport stay |
| Commands.UndoThenRedo | frontend/src/lib/commands.ts:61-112 | redo after undo gives the state execute gives; for snapshot commands that is the after-snapshot whatever the prior state |
| Commands.ExecuteThenUndo | frontend/src/lib/commands.ts:61-108 | undo after execute restores the state the command was recorded from |
| Commands.Execute | frontend/src/lib/commands.ts:39-204 | the editor afterwards is `Executed` of the command on the old editor |
| Commands.Undo | frontend/src/lib/commands.ts:39-204 | the editor afterwards is `Undone` of the command on the old editor |
| Commands.Redo | frontend/src/lib/commands.ts:39-204 | redo is execute |
| Commands.UpdateCode | frontend/src/lib/commands.ts:114-127 | the editor's snapshot becomes `WithContent` of the old one |
| History.AfterAdd | frontend/src/store/useHistoryStore.ts:16-35 | adding leaves the redo stack empty and the command on top of the undo stack |
| History.AddDropsOnlyOldest | frontend/src/store/useHistoryStore.ts:22-28 | below 50 the command is appended; at 50 only the oldest entry is dropped |
| History.OperationsStayBounded | frontend/src/store/useHistoryStore.ts:16-98 | add, undo and redo keep the stacks' combined size within 50 |
| History.UndoThenRedoRestores | frontend/src/store/useHistoryStore.ts:44-98 | undo then redo restores both stacks exactly |
| History.RedoThenUndoRestores | frontend/src/store/useHistoryStore.ts:44-98 | redo then undo restores both stacks exactly |
| History.HistoryStore.constructor | frontend/src/store/useHistoryStore.ts:10-14 | empty stacks and currentIndex −1 |
| History.HistoryStore.AddCommand | frontend/src/store/useHistoryStore.ts:16-35 | the stacks become `AfterAdd`; no command runs; currentIndex tracks the undo stack |
| History.HistoryStore.Undo | frontend/src/store/useHistoryStore.ts:44-66 | on an empty undo stack nothing changes; otherwise the top command is undone on the editor and moves to the redo stack |
| History.HistoryStore.Redo | frontend/src/store/useHistoryStore.ts:76-98 | on an empty redo stack nothing changes; otherwise the top command is redone on the editor and moves back to the undo stack |
| History.HistoryStore.ClearHistory | frontend/src/store/useHistoryStore.ts:116-123 | both stacks empty and currentIndex −1 |
| History.HistoryStore.GetHistory | frontend/src/store/useHistoryStore.ts:125-127 | the undo stack |
| Timeline.CommandIcon | frontend/src/components/HistoryTimeline.tsx:10-25 | every command type has an icon |
| Timeline.IconsDistinct | frontend/src/components/HistoryTimeline.tsx:10-25 | different types have different icons |
| Timeline.TimestampUnits | frontend/src/components/HistoryTimeline.tsx:27-40 | "just now" under 60 s, then whole minutes under an hour, hours under a day, else days |
| Timeline.Reversed | frontend/src/components/HistoryTimeline.tsx:53 | the list shows the newest command first |
| Timeline.FilterKeepsMatches | frontend/src/components/HistoryTimeline.tsx:54-59 | a command is listed exactly when its description or type contains the query, ignoring case |
| Timeline.Filter | frontend/src/components/HistoryTimeline.tsx:54-59 | the search never lists more commands than the history has |
| Timeline.Listed | frontend/src/components/HistoryTimeline.tsx:53-59 | an empty query lists the whole undo stack, newest first |
| Timeline.UndosShrinkStack | frontend/src/components/HistoryTimeline.tsx:72-75 | n undos drop the top n commands and add n to the redo stack |
| Timeline.ClickUndoesNewer | frontend/src/components/HistoryTimeline.tsx:53-132 | item i is undo-stack entry length−1−i, clicking it is exactly i undos, and afterwards it is the top of the undo stack |
| Timeline.JumpToPoint | frontend/src/components/HistoryTimeline.tsx:67-82 | the undo/redo loops leave the history and editor in `Jump` of the old state |
| ChatStore.Received | frontend/src/store/useChatStore.ts:102-161 | start and content events are recognised by type; other event types are ignored |
| ChatStore.ServerLineRead | frontend/src/store/useChatStore.ts:93-97 | a "data: " line hands its payload to the decoder; an empty line gives nothing |
| ChatStore.Decoded | frontend/src/store/useChatStore.ts:93-164 | at most one event per line; undecodable lines are skipped |
| ChatStore.WithDelta | frontend/src/store/useChatStore.ts:118-129 | the delta is appended to the messages with that id; the list keeps its length |
| ChatStore.WithDeltaFresh | frontend/src/store/useChatStore.ts:118-129 | with a fresh id only the new message grows |
| ChatStore.StreamedMessage | frontend/src/store/useChatStore.ts:102-129 | a start and content events for a fresh id add one assistant message spelling the deltas |
| ChatStore.ChunkedExplanationArrives | frontend/src/store/useChatStore.ts:102-129 | a text sent in chunks arrives whole as one assistant message |
| ChatStore.CodeGeneratedRecorded | frontend/src/store/useChatStore.ts:130-161 | the editor code is set with missing parts as ''; an agent-generation command is recorded only in agent mode, and undoing it restores the earlier editor |
| ChatStore.Receive | frontend/src/store/useChatStore.ts:102-161 | one incoming record per streamed event, in order |
| ChatStore.ReduceAppend | frontend/src/store/useChatStore.ts:86-167 | reading two batches of events equals reading them in one go |
| ChatStore.ReceiveAppend | frontend/src/store/useChatStore.ts:86-167 | receiving two batches equals receiving them in one go |
| ChatStore.LastMessages | frontend/src/store/useChatStore.ts:73 | the last ten messages, or all when fewer |
| ChatStore.ErrorText | frontend/src/store/useChatStore.ts:174 | an Error's message, otherwise 'Failed to send message' |
| ChatStore.ChatStoreState.constructor | frontend/src/store/useChatStore.ts:28-34 | no messages, agent mode, not loading, no error, no project, mock mode off |
| ChatStore.ChatStoreState.SetMode | frontend/src/store/useChatStore.ts:36 | only the mode changes |
| ChatStore.ChatStoreState.ToggleMockMode | frontend/src/store/useChatStore.ts:38 | only the mock flag flips |
| ChatStore.ChatStoreState.ClearMessages | frontend/src/store/useChatStore.ts:180 | messages and error are cleared, nothing else changes |
| ChatStore.ChatStoreState.SetProjectId | frontend/src/store/useChatStore.ts:182 | only the project id changes |
| ChatStore.ChatStoreState.AddMessage | frontend/src/store/useChatStore.ts:184-186 | the message is appended |
| ChatStore.ChatStoreState.Apply | frontend/src/store/useChatStore.ts:102-161 | one event updates messages, editor and history as `Step` says |
| ChatStore.ChatStoreState.ReadLines | frontend/src/store/useChatStore.ts:86-167 | the line loop reduces the decoded events in order |
| ChatStore.ChatStoreState.SendMessage | frontend/src/store/useChatStore.ts:40-178 | the user message is appended; the request carries the endpoint, mode, project id and the ten messages before it; the events are reduced in order; loading ends; the error is set exactly when the transport failed |
| SurgicalEdit.EditTypeChoice | backend/src/services/surgical-edit.service.ts:57-74 | css-selector exactly when there is a selection and a style keyword; otherwise search-replace exactly when a targeted keyword occurs, and whole-file exactly when none does; never css-selector without a selection; the choice ignores case |
| SurgicalEdit.GenerateSurgicalEdit | backend/src/services/surgical-edit.service.ts:79-108 | the request sends the kind's system and user prompts with 2000 tokens at 0.3; a rejected completion propagates unchanged; otherwise the result is `ParseResponse` of the reply, its failure thrown as an Error with the fixed message; a response carries the classified edit type |
| SurgicalEdit.CssPromptSeesExcerpt | backend/src/services/surgical-edit.service.ts:179-198 | the css prompt sees only the first 1000 characters of the CSS |
| SurgicalEdit.SearchReplacePromptSeesExcerpts | backend/src/services/surgical-edit.service.ts:200-213 | the search-replace prompt sees only 800, 600 and 600 characters of html, css and js |
| SurgicalEdit.WholeFilePromptShowsCode | backend/src/services/surgical-edit.service.ts:215-226 | the whole-file prompt contains all three files |
| SurgicalEdit.ExcerptBounds | backend/src/services/surgical-edit.service.ts:193-208 | an excerpt is the prefix of length n, or the whole text when shorter |
| SurgicalEdit.JsonFencedBodyRecovered | backend/src/services/surgical-edit.service.ts:235-236 | a ```` ```json ```` fenced body comes back exactly |
| SurgicalEdit.PlainFencedBodyRecovered | backend/src/services/surgical-edit.service.ts:237-238 | a plain fenced body comes back exactly |
| SurgicalEdit.UnfencedPlain | backend/src/services/surgical-edit.service.ts:234-239 | unfenced content is only trimmed |
| SurgicalEdit.ParseResponseOutcome | backend/src/services/surgical-edit.service.ts:231-252 | fails with the fixed message exactly when the content does not decode or decodes to null; edits default to [] and explanation to 'Code updated'; the edit type is passed through |
| SurgicalEdit.WithPart | backend/src/services/surgical-edit.service.ts:291-323 | only the named file changes |
| SurgicalEdit.SearchReplaceEffect | backend/src/services/surgical-edit.service.ts:291-306 | an absent search changes nothing; otherwise its first occurrence is replaced in the named file and the other files stay |
| SurgicalEdit.ApplyEdits | backend/src/services/surgical-edit.service.ts:257-274 | the loop returns the left-to-right fold `ApplyAll` |
| SurgicalEdit.UntouchedPartsKept | backend/src/services/surgical-edit.service.ts:263-270 | a file no edit names is unchanged, so css-selector edits change only css |
| SurgicalEdit.ApplyAllAppend | backend/src/services/surgical-edit.service.ts:263-271 | applying two lists equals applying their concatenation |
| SurgicalEdit.LastWholeFileWins | backend/src/services/surgical-edit.service.ts:308-323 | a final whole-file edit decides its file's content |
| SurgicalEdit.EscapeRegex | backend/src/services/surgical-edit.service.ts:325-327 | escaping never shortens the text |
| SurgicalEdit.EscapeRoundTrip | backend/src/services/surgical-edit.service.ts:325-327 | unescaping the escaped text gives the original back |
| SurgicalEdit.EscapePlain | backend/src/services/surgical-edit.service.ts:325-327 | text without special characters is unchanged |
| ResponseCache.Sanitize | backend/src/services/response-cache.service.ts:145 | exactly the letters, digits and whitespace are kept |
| ResponseCache.Take5 | backend/src/services/response-cache.service.ts:148 | the first five words, or all when fewer |
| ResponseCache.GenerateFilename | backend/src/services/response-cache.service.ts:141-152 | the name ends in '.json' |
| ResponseCache.FilenameShape | backend/src/services/response-cache.service.ts:141-152 | the stem has only letters, digits and '-', and the name ignores letter case |
| ResponseCache.KeptWords | backend/src/services/response-cache.service.ts:157-164 | the keywords never outnumber the words |
| ResponseCache.KeptWordsIff | backend/src/services/response-cache.service.ts:157-164 | a word is a keyword exactly when it is one of the words, longer than 2 characters and not a stop word |
| ResponseCache.MatchScore | backend/src/services/response-cache.service.ts:169-174 | the score lies in [0, 1] and is 0 when either list is empty |
| ResponseCache.ScoreExtremes | backend/src/services/response-cache.service.ts:169-174 | a non-empty list scores 1 against itself, and 0 against a list sharing nothing |
| ResponseCache.RecordLengths | backend/src/services/response-cache.service.ts:33-37 | metadata records html and css lengths and 0 for missing js |
| ResponseCache.LengthOf | backend/src/services/response-cache.service.ts:34-36 | a text's or an array's length, an object's positive numeric `length` member, and 0 for a missing, null, number or boolean value |
| ResponseCache.Written | backend/src/services/response-cache.service.ts:23-45 | the file is stored under its name and every other file stays |
| ResponseCache.Lookup | backend/src/services/response-cache.service.ts:50-55 | a found file has that name; none means no file has it |
| ResponseCache.SaveThenLoad | backend/src/services/response-cache.service.ts:23-67 | a saved response that is not null loads back by its prompt, in any letter case |
| ResponseCache.NullNotSaved | backend/src/services/response-cache.service.ts:23-44 | a null response throws at `response.html` inside the try, so nothing is written |
| ResponseCache.AllResponses | backend/src/services/response-cache.service.ts:72-98 | at most one listed response per file |
| ResponseCache.SimilarIsAboveThreshold | backend/src/services/response-cache.service.ts:115-124 | a cached entry is similar exactly when its score exceeds 0.5 |
| ResponseCache.FuzzyIsFirstAbove | backend/src/services/response-cache.service.ts:115-131 | the fuzzy match is the first listed entry scoring above 0.5, or none when there is none |
| ResponseCache.ExactMatchFirst | backend/src/services/response-cache.service.ts:108-110 | a saved truthy response is returned by exact file name before any fuzzy matching |
| ResponseCache.FindBestMatch | backend/src/services/response-cache.service.ts:103-136 | the loop with early return gives `BestMatch` |
| ResponseCache.ClearCache | backend/src/services/response-cache.service.ts:179-189 | nothing is listed and no prompt finds a match afterwards |
| ProjectStore.RetryRequest | frontend/src/store/useProjectStore.ts:78-93 | between 1 and retries+1 calls, one wait fewer than calls |
| ProjectStore.RetryWaitsDouble | frontend/src/store/useProjectStore.ts:84-90 | the waits are delay, 2·delay, 4·delay, … |
| ProjectStore.RetryFirstSuccess | frontend/src/store/useProjectStore.ts:78-93 | every call but the last failed; the result is the last call's success or, when retries run out, its error |
| ProjectStore.DefaultRetries | frontend/src/store/useProjectStore.ts:72-93 | at most four calls, with waits 1000, 2000, 4000 |
| ProjectStore.SaveBody | frontend/src/store/useProjectStore.ts:224-229 | html, css and js come from the updates unless null or undefined, otherwise from the editor |
| ProjectStore.ReplacedEntries | frontend/src/store/useProjectStore.ts:245-253 | entries with the saved id become the saved project; all others stay |
| ProjectStore.RemovedIff | frontend/src/store/useProjectStore.ts:277 | a project remains exactly when its id differs |
| ProjectStore.AfterDelete | frontend/src/store/useProjectStore.ts:278 | the current project is cleared only when it has the deleted id |
| ProjectStore.ErrorOr | frontend/src/store/useProjectStore.ts:170 | an Error's message, otherwise the fallback text |
| ProjectStore.ProjectStoreState.constructor | frontend/src/store/useProjectStore.ts:95-101 | an empty, idle store |
| ProjectStore.ProjectStoreState.CreateProject | frontend/src/store/useProjectStore.ts:129-176 | on success the project is prepended, made current, and loaded into the editor; on failure the list is kept and the error set |
| ProjectStore.ProjectStoreState.SaveProject | frontend/src/store/useProjectStore.ts:215-262 | nothing happens without a current project; otherwise `SaveBody` is sent with retry and the list entry is replaced |
| ProjectStore.ProjectStoreState.DeleteProject | frontend/src/store/useProjectStore.ts:267-289 | on success every project with the id is removed and the current one cleared only if it had that id; on failure the error is set |
| ProjectStore.ProjectStoreState.DuplicateProject | frontend/src/store/useProjectStore.ts:294-320 | on success the copy is prepended and the current project kept |
| ProjectStore.AutoSave.constructor | frontend/src/store/useProjectStore.ts:68-69 | disabled, no timer |
| ProjectStore.AutoSave.Enable | frontend/src/store/useProjectStore.ts:348-351 | enabled; the pending timer is untouched |
| ProjectStore.AutoSave.Disable | frontend/src/store/useProjectStore.ts:356-363 | disabled, and a pending timer is cancelled |
| ProjectStore.AutoSave.Trigger | frontend/src/store/useProjectStore.ts:368-384 | a timer is pending afterwards exactly when auto-save is on or one already was |
| ProjectStore.AutoSave.Fire | frontend/src/store/useProjectStore.ts:377-383 | the timer runs `saveProject` with no updates on the current project, leaving the store exactly as that save does; without a current project the store is unchanged |
| ProjectService.DefinedInOrder | backend/src/services/project.service.ts:98-137 | the defined fields are the fields whose value is not undefined, in the fixed column order |
| ProjectService.ClausesNumbered | backend/src/services/project.service.ts:98-137 | the k-th clause is "column = $k" |
| ProjectService.DefinedValuesMatch | backend/src/services/project.service.ts:98-137 | the values line up with the clauses |
| ProjectService.DelegatesWhenNothingDefined | backend/src/services/project.service.ts:139-141 | no UPDATE is built exactly when no field is defined |
| ProjectService.NoneDefinedIff | backend/src/services/project.service.ts:98-141 | no field is defined exactly when every update value is undefined |
| ProjectService.UpdateIdLast | backend/src/services/project.service.ts:143-146 | the id is the last value, with placeholder $(clauses+1) |
| ProjectService.UpdateSetsEveryDefinedField | backend/src/services/project.service.ts:98-137 | every defined field gets a clause whose value is the field's value |
| ProjectService.NullOrEmptyNameIsSet | backend/src/services/project.service.ts:102-105 | a name given as null or '' still counts as defined and is set as $1 |
| ProjectService.BuildUpdate | backend/src/services/project.service.ts:96-146 | the push loop returns `UpdateStatement` |
| ProjectService.InsertValues | backend/src/services/project.service.ts:67-81 | the INSERT gets exactly eight values, one per column |
| ProjectService.CreateDefaults | backend/src/services/project.service.ts:67-81 | missing fields default to "Untitled Project …", 'prototype', '' for the code and null for requirements |
| ProjectService.ProjectById | backend/src/services/project.service.ts:37-62 | a found row has that id; none means no row has it |
| ProjectService.DuplicateNamesCopy | backend/src/services/project.service.ts:192-212 | no copy for a missing original; otherwise the copy is named "<name> (Copy)" and takes the original's content |
| LlmBase.ValidateConfig | backend/src/llm/base.ts:42-50 | valid exactly when the api key is set or the provider is 'ollama', and the model is set |
| LlmBase.MergeWithDefaults | backend/src/llm/base.ts:55-61 | request fields are kept; temperature and maxTokens fall back to the config, then to 0.7 and 4000, only when null or undefined |
| LlmBase.MergeIdempotent | backend/src/llm/base.ts:55-61 | merging twice equals merging once |
| LlmFactory.ProviderName | backend/src/llm/factory.ts:26-41 | exactly the four supported provider keys build an instance, whose `getProviderName()` is recorded |
| LlmFactory.ProviderNameLowers | backend/src/llm/factory.ts:20-41 | the `getProviderName()` of the instance built for a key lowercases to that key, so the next lookup for it hits the cache |
| LlmFactory.GetProviderSpec | backend/src/llm/factory.ts:18-48 | a cache hit returns the cached instance; an unsupported name fails and keeps the cache |
| LlmFactory.InvalidConfigStaysCached | backend/src/llm/factory.ts:20-45 | an invalid config fails but its instance stays cached, and the next call for that provider returns it |
| LlmFactory.KeyOrModelChangeKeepsInstance | backend/src/llm/factory.ts:20 | changing only the key or the model returns the cached instance |
| LlmFactory.LookupReturnsCache | backend/src/llm/factory.ts:18-48 | a returned instance is the cached one and matches the requested provider |
| LlmFactory.ProviderFactory.constructor | backend/src/llm/factory.ts:14-16 | the factory starts with no cached instance |
| LlmFactory.ProviderFactory.GetProvider | backend/src/llm/factory.ts:18-48 | the method's result and new cache are `GetProviderSpec` |
| LlmFactory.ProviderFactory.Reset | backend/src/llm/factory.ts:53-55 | the cache is empty |
| MockRoutes.PayloadChoice | backend/src/routes/chat-mock.routes.ts:205-219 | the cache's best match when there is one, otherwise landing for "landing" or "page" and button else |
| MockRoutes.ChoosePayload | backend/src/routes/chat-mock.routes.ts:205-219 | the method returns `SelectPayload` |
| MockRoutes.ExplanationOf | backend/src/routes/chat-mock.routes.ts:230-232 | a string explanation is streamed; a missing or null one throws on `.length`; any other value throws at `.substring` exactly when its `length` passes `0 < length` after conversion to a number, and otherwise sends nothing |
| MockRoutes.ObjectExplanationThrows | backend/src/routes/chat-mock.routes.ts:231-233 | an explanation `{"length": 3}` throws at `.substring` |
| MockRoutes.SuccessfulRunOrder | backend/src/routes/chat-mock.routes.ts:197-267 | RunStarted, TextMessageStart, deltas, TextMessageEnd, code_generated, RunFinished |
| MockRoutes.RunDeltaSizes | backend/src/routes/chat-mock.routes.ts:230-244 | every delta has 1 to 20 characters, all for the run's message |
| MockRoutes.RunSpellsExplanation | backend/src/routes/chat-mock.routes.ts:230-244 | the deltas spell the explanation |
| MockRoutes.TraceParts | backend/src/routes/chat-mock.routes.ts:197-267 | a mock run is the two start events, the explanation's 20-character chunks as content events, then the closing events |
| MockRoutes.SuccessfulRunDeltas | backend/src/routes/chat-mock.routes.ts:229-244 | the events between start and end are content deltas of at most 20 characters that spell the explanation |
| MockRoutes.FailedRun | backend/src/routes/chat-mock.routes.ts:271-276 | a thrown error gives one error event after the start events |
| MockRoutes.MocksComplete | backend/src/routes/chat-mock.routes.ts:13-170 | both built-in payloads have an explanation; the button one streams in four chunks |
| MockRoutes.StreamMock | backend/src/routes/chat-mock.routes.ts:188-277 | the route writes exactly `Trace` of the chosen payload and ends the response |
| MockRoutes.SendReply | backend/src/routes/chat-mock.routes.ts:221-276 | the reply events are written and the response ended |
| MockRoutes.FinishRun | backend/src/routes/chat-mock.routes.ts:246-269 | the closing events are written and the response ended |
| MockRoutes.ClosingReceived | frontend/src/store/useChatStore.ts:130-161 | the chat store's reading of the closing events is the handling of the one `code_generated` event |
| MockRoutes.ClientShowsMockRun | backend/src/routes/chat-mock.routes.ts:197-267 | the chat store shows the explanation as one assistant message and receives the payload's code |
| MockRoutes.ListCached | backend/src/routes/chat-mock.routes.ts:283-298 | count equals the number of listed responses, with their prompts in order |
| MockRoutes.DeleteCache | backend/src/routes/chat-mock.routes.ts:304-312 | after clearing, nothing is listed and the fixed message is returned |
| MockRoutes.ClearedCacheFallsBack | backend/src/routes/chat-mock.routes.ts:206-216 | after clearing, only the built-in payloads are used |
| ChatPrompts.CodeBlock | backend/src/llm/prompts/chat-mode.ts:32-34 | the block shows at most 500 characters of code followed by "..." |
| ChatPrompts.ChatUserPrompt | backend/src/llm/prompts/chat-mode.ts:29-41 | the prompt opens with the message, which is all of it without context |
| ChatPrompts.ChatPromptLayout | backend/src/llm/prompts/chat-mode.ts:29-41 | message, then code block, then selected-element line |
| ChatPrompts.ChatPromptCodeExcerptOnly | backend/src/llm/prompts/chat-mode.ts:32-34 | the prompt sees only the first 500 characters of code |
| ChatPrompts.ChatPromptSelectionOnly | backend/src/llm/prompts/chat-mode.ts:36-38 | without code only the selected-element line is added |
| ChatPrompts.GenerateChatResponse | backend/src/llm/prompts/chat-mode.ts:43-48 | the system prompt is always the chat one |
| VisualEditor.Segment | frontend/src/hooks/useVisualEditor.ts:36-45 | a segment opens with the lowercased tag |
| VisualEditor.NonBlank | frontend/src/hooks/useVisualEditor.ts:41 | only class names that are not blank are kept |
| VisualEditor.BeforeBody | frontend/src/hooks/useVisualEditor.ts:34-35 | the walk stops at the first BODY ancestor |
| VisualEditor.PathOrder | frontend/src/hooks/useVisualEditor.ts:31-52 | segments run from the outermost non-BODY ancestor down to the element, whose segment is last |
| VisualEditor.GetElementPath | frontend/src/hooks/useVisualEditor.ts:31-52 | the unshift loop returns the segments joined by " > " |
| VisualEditor.LastPieceOfPath | frontend/src/hooks/useVisualEditor.ts:141 | the last piece after splitting on " > " is the last segment |
| VisualEditor.ReselectionQueriesElement | frontend/src/hooks/useVisualEditor.ts:135-141 | re-selection queries the selected element's own segment |
| VisualEditor.StyleWrites | frontend/src/hooks/useVisualEditor.ts:114-119 | only non-empty style values are written |
| VisualEditor.Edited | frontend/src/hooks/useVisualEditor.ts:96-119 | the element keeps its tag, and its style gains the written keys |
| VisualEditor.StyleEditsStayInline | frontend/src/hooks/useVisualEditor.ts:96-131 | style changes never update the html; text, class and id changes do |
| VisualEditor.VisualEditorState.constructor | frontend/src/hooks/useVisualEditor.ts:27-28 | edit mode off and nothing selected |
| VisualEditor.VisualEditorState.SelectElement | frontend/src/hooks/useVisualEditor.ts:75-87 | the selection records tag, classes, id, trimmed text, styles and path |
| VisualEditor.VisualEditorState.UpdateElement | frontend/src/hooks/useVisualEditor.ts:89-152 | without a selection nothing changes; otherwise the html is updated exactly when text, class or id changed |
| VisualEditor.VisualEditorState.SaveChanges | frontend/src/hooks/useVisualEditor.ts:154-160 | the iframe body, when present, becomes the html |
| VisualEditor.VisualEditorState.Enable | frontend/src/hooks/useVisualEditor.ts:162-164 | edit mode on, selection kept |
| VisualEditor.VisualEditorState.Disable | frontend/src/hooks/useVisualEditor.ts:166-169 | edit mode off and the selection cleared |
| VisualEditor.VisualEditorState.ClearSelection | frontend/src/hooks/useVisualEditor.ts:71-73 | the selection is cleared |
| KeyboardShortcuts.UndoExactly | frontend/src/hooks/useKeyboardShortcuts.ts:20-27 | undo runs exactly for modifier + 'z' without shift when undo is possible |
| KeyboardShortcuts.RedoExactly | frontend/src/hooks/useKeyboardShortcuts.ts:30-39 | redo runs exactly for modifier + 'y' off Mac or modifier + shift + 'z' on Mac, when redo is possible |
| KeyboardShortcuts.ModifierRequired | frontend/src/hooks/useKeyboardShortcuts.ts:14-17 | without the platform modifier nothing happens |
| KeyboardShortcuts.ShiftZOffMac | frontend/src/hooks/useKeyboardShortcuts.ts:20-33 | off Mac, modifier + shift + 'z' does nothing |
| KeyboardShortcuts.MacTestIgnoresCase | frontend/src/hooks/useKeyboardShortcuts.ts:14 | the platform test ignores letter case |
| ModeStore.LoadMode | frontend/src/store/useModeStore.ts:16-20 | 'ba' exactly when a window exists and the stored value is exactly 'ba' |
| ModeStore.Toggled | frontend/src/store/useModeStore.ts:38-45 | toggling changes the mode |
| ModeStore.ToggleTwice | frontend/src/store/useModeStore.ts:38-45 | two toggles restore the mode |
| ModeStore.SavedModeReloads | frontend/src/store/useModeStore.ts:16-27 | a saved mode loads back |
| ModeStore.ModeStoreState.constructor | frontend/src/store/useModeStore.ts:29-30 | the mode is loaded from storage |
| ModeStore.ModeStoreState.Save | frontend/src/store/useModeStore.ts:23-27 | the mode's name is stored when a window exists, otherwise storage is unchanged |
| ModeStore.ModeStoreState.SetMode | frontend/src/store/useModeStore.ts:32-36 | the mode is set and persisted |
| ModeStore.ModeStoreState.ToggleMode | frontend/src/store/useModeStore.ts:38-45 | the mode flips and the new value is persisted |

## Left out

- JSON decoding: `JSON.parse` is a decoder parameter, not a decoder, so
  properties are stated about the text handed to it and hold for every decoder.
- ChatService.ParseAgentResponse: the ```` ```json ```` block regex of strategy
  2 (backend/src/services/chat.service.ts:226) is a block-matcher parameter.
  Strategy 3's `\{[\s\S]*$` is modelled exactly, as the suffix from the first `{`.
- SurgicalEdit.ApplyEdits: `applyCSSEdit`
  (backend/src/services/surgical-edit.service.ts:276-289) is a rewriter
  parameter, because it is regex-driven.
- SurgicalEdit.SearchReplaceEffect: the replacement is literal. The `$&`, `$1`
  and `$$` patterns that `String.prototype.replace` interprets are not modelled.
- PromptOptimizer.SelectStrategy: the score is exact arithmetic in tenths.
  In JavaScript, 0.2+0.2+0.2+0.1 is 0.7000000000000001, so at
  backend/src/utils/prompt-optimizer.ts:41 three complex keywords and one
  feature keyword give 'minimal'. The model gives 'concise', as
  SevenTenthsIsConcise states.
- Letter case and whitespace: lower-casing, upper-casing and trimming cover
  ASCII only. Unicode case mapping and Unicode spaces are not modelled.
- Text of thrown errors: a thrown TypeError (from `.map`, `.join` or `.length`
  on a wrong value) is modelled as "throws". Its message text is not modelled.
- Clock, ids and sleeps: `Date.now`, timestamps, `uuidv4` and
  `crypto.randomUUID` are parameters. The backoff and chunk sleeps are not
  modelled, nor are the debounce timer's delay and the setTimeout re-selection
  in the visual editor.
- Prompt texts: the variable parts and headers of the prompts are exact. The
  long fixed instruction bodies and system prompts are named constants with
  shortened text.
- Mock payloads: the HTML and CSS of the built-in mock payloads are shortened.
  Their explanations and suggestions are exact.
- Timeline.JumpToPoint: a jump is modelled over the unfiltered list only. With
  a search filter, the clicked index comes from the filtered position
  (frontend/src/components/HistoryTimeline.tsx:127).
- ChatStore.ChatStoreState.SendMessage: the HTTP response is given as its lines
  and an optional failure. Not modelled:
  - `fetch`;
  - chunk splitting by `reader.read`;
  - console logging;
  - the intermediate `isLoading = true` state, which is visible only while the
    call runs;
  - the rethrow, reported as the `thrown` result.
- Project store: `loadProjects`, `openProject` and `searchProjects`
  (frontend/src/store/useProjectStore.ts:106-124, 181-210, 325-343) are plain
  fetch-and-store calls and are not modelled.
- ProjectStore.AutoSave.Fire: the auto-save timer is modelled as a pending flag
  that `Fire` consumes. The 2-second delay is not modelled.
- Project service: only `updateProject`, the `createProject` values,
  `getProjectById` and `duplicateProject` are modelled. The rest of
  project.service.ts is plain SQL.
- ChatService: `summarizeConversation`
  (backend/src/services/chat.service.ts:294-315) is one LLM call and is not
  modelled.
- ChatService: the `generateAgentPrompt(action, message, currentCode)` call of
  `processAgentMode` (backend/src/services/chat.service.ts:89-93) does not
  match the function's signature. The request it builds is a parameter.
- LLM providers: the four provider classes (DeepSeekProvider and the others
  under backend/src/llm/providers) are represented by their
  `getProviderName()` values. Their network clients are not modelled.
- Response cache: the directory is a sequence of files read in listing order.
  File-system errors and records whose prompt is not a string are not modelled.
- Numbers: decoded numbers are integers. Fractions are not modelled, nor is
  the rendering of non-integer numbers by `String()`.
- JsValues.NumberPositive: a numeric text converts as its literal's value.
  A literal so small that it rounds to 0 (such as "1e-400") is still read as
  positive.
- ChatStream.CodeOf: a `suggestions` value that is not an array is sent as
  `[]`, and a non-text code part is sent as its `String()` text. The source
  forwards the raw values, which the client store also ignores.
- ChatService.DecodedReply: the reply's fields are texts. A truthy `html`,
  `css`, `js` or `explanation` member that is not text becomes its `String()`
  text, and the items of a `suggestions` array become texts. The source
  (backend/src/services/chat.service.ts:116-121) passes these raw values on.
  For example, `{"html":"<p/>","explanation":5}` answers with the number 5 in
  the source and with the text "5" here.
- ChatService.AgentModeResponse: it is built from the same reply, so its code,
  explanation and suggestions carry the same `String()` conversion of members
  that are not text.
- SurgicalEdit.ParseResponseOutcome: a truthy `explanation` that is not text
  becomes its `String()` text. The source returns `parsed.explanation` as it
  is (backend/src/services/surgical-edit.service.ts:245).
- MockRoutes.ClientShowsMockRun: the code the client receives is read through
  `CodeValue`, which turns a truthy member that is not text into its `String()`
  text and the suggestion items into texts. The route sends the cached payload
  as it is (backend/src/routes/chat-mock.routes.ts:257), and the client store
  keeps those raw values.
- ResponseCache.LengthOf: an object's `length` member is recorded only when
  it is a positive number, and as 0 otherwise. The source records any truthy
  member as it is, such as a negative number or a text.
- Text lengths: JavaScript counts `.length`, `substring` and `slice` in UTF-16
  code units; the model counts Unicode characters. For text outside the Basic
  Multilingual Plane, such as the summary's "💡", these members cut at
  different places:
  - AgUi.Chunks, AgUi.ChunksSizes and AgUi.SendChunked (100-character chunks);
  - MockRoutes.RunDeltaSizes (20-character deltas);
  - Commands.AgentDescription and Commands.AgentDescriptionShape (the
    50-character cut);
  - ChatService.Candidates and ChatService.Suggestions (the 10 and 100
    length bounds);
  - ChatPrompts.CodeBlock, AgentPrompts.CodeExcerptOnly and
    SurgicalEdit.ExcerptBounds (the 500, 2000, 1000, 800 and 600
    excerpts);
  - ResponseCache.LengthOf (the recorded lengths).
- Rendering: React rendering, DOM mutation and the iframe listeners are not
  modelled. The visual editor's DOM is given as the ancestor chain and the
  body's HTML after an edit.
- Logging and console output are not modelled.
