/** `ChatStreamService` (backend/src/services/chat-stream.service.ts): one run
    of the streaming endpoint as the sequence of AG-UI events it writes.  The
    LLM provider, `JSON.parse`, the identifiers and the clock are parameters;
    a thrown value is a `Thrown`. */
module ChatStream {
  import opened Wrappers
  import opened Strings
  import opened JsValues
  import opened AgUi
  import opened ChatTypes
  import opened LlmBase
  import opened BraceScan
  import AgentPrompts
  import ChatPrompts

  /** What a `catch` receives: an `Error` with its message, a `TypeError`
      raised by the runtime (whose message the engine words), or any other
      value. */
  datatype Thrown = ErrorValue(message: string) | TypeErrorValue | OtherValue

  /** The engine's wording of a `TypeError` is not modelled. */
  const TypeErrorText := "[TypeError message]"

  /** The `RunError` message: the error's message, or 'Unknown error' for a
      thrown value that is not an `Error`. */
  function RunErrorMessage(t: Thrown): (m: string)
    ensures t.ErrorValue? ==> m == t.message
    ensures t.OtherValue? ==> m == "Unknown error"
  {
    match t
    case ErrorValue(message) => message
    case TypeErrorValue => TypeErrorText
    case OtherValue => "Unknown error"
  }

  /** A piece of streamed output and the clock reading when its callback ran. */
  datatype Chunk = Chunk(text: string, time: int)

  /** What `streamComplete` does: the chunks it hands to the callback, then
      the response it resolves to (`None` for a falsy one) or the value it
      rejects with. */
  datatype StreamReply = StreamReply(chunks: seq<Chunk>, response: Result<Option<string>, Thrown>)

  /** The LLM provider: `complete` resolves to the response content or
      rejects; `streamComplete` is optional. */
  datatype Provider = Provider(
    complete: LlmRequest -> Result<string, Thrown>,
    streamComplete: Option<LlmRequest -> StreamReply>)

  /** Identifiers the service draws from `uuidv4()`. */
  datatype RunIds = RunIds(runId: string, fallbackThreadId: string, planMessageId: string, messageId: string)

  /** A response saved to the response cache: the prompt and the code. */
  datatype CacheEntry = CacheEntry(prompt: string, code: GeneratedCode)

  /** What a mode's processing did: the events it wrote, the cache write it
      made, and what it threw. */
  datatype Outcome = Outcome(events: seq<Event>, saved: Option<CacheEntry>, thrown: Option<Thrown>)

  const AnalyzingDelta := "🎯 **Analyzing your request...**\n\n"
  const GeneratingDelta := "✨ **Generating your prototype...**\n\n"
  const ApologyDelta := "Sorry, I had trouble generating the code. Please try again with a simpler request."
  const ProgressDelta := "."
  const DefaultExplanation := "Code generated successfully!"
  const ChatChunkSize: nat := 100
  const StreamMaxTokens := 8192
  /** Milliseconds between progress dots. */
  const ProgressInterval := 2000

  /** Events other than the run's start and end. */
  predicate IsMessageEvent(e: Event) {
    e.TextMessageStart? || e.TextMessageContent? || e.TextMessageEnd? || e.CodeGenerated?
  }

  predicate AllMessageEvents(events: seq<Event>) {
    forall e :: e in events ==> IsMessageEvent(e)
  }

  // ---------------------------------------------------------------------
  // Conversation messages

  /** History roles: a user message stays a user message, anything else is
      sent as an assistant message. */
  function RoleOf(role: MessageRole): (r: LlmRole)
    ensures r == UserRole <==> role == User
    ensures r != SystemRole
  {
    if role == User then UserRole else AssistantRole
  }

  /** The system prompt, the conversation history (or none), then the user
      prompt. */
  function BuildMessages(systemPrompt: string, history: Option<seq<ChatMessage>>, userPrompt: string): (r: seq<LlmMessage>)
    ensures var h := if history.Some? then history.value else [];
      && |r| == |h| + 2
      && r[0] == LlmMessage(SystemRole, systemPrompt)
      && r[|r| - 1] == LlmMessage(UserRole, userPrompt)
  {
    var h := if history.Some? then history.value else [];
    [LlmMessage(SystemRole, systemPrompt)] + HistoryMessages(h) + [LlmMessage(UserRole, userPrompt)]
  }

  /** The history as LLM messages, one for each chat message, in order. */
  function HistoryMessages(h: seq<ChatMessage>): (r: seq<LlmMessage>)
    ensures |r| == |h|
    ensures forall i :: 0 <= i < |h| ==> r[i] == LlmMessage(RoleOf(h[i].role), h[i].content)
  {
    if h == [] then [] else [LlmMessage(RoleOf(h[0].role), h[0].content)] + HistoryMessages(h[1..])
  }

  /** Only the first message carries the system role, whatever the history
      holds. */
  lemma OnlyFirstMessageIsSystem(systemPrompt: string, history: Option<seq<ChatMessage>>, userPrompt: string)
    ensures var r := BuildMessages(systemPrompt, history, userPrompt);
      forall i :: 0 < i < |r| ==> r[i].role != SystemRole
  {
    var r := BuildMessages(systemPrompt, history, userPrompt);
    var h := if history.Some? then history.value else [];
    var middle := HistoryMessages(h);
    assert r == [LlmMessage(SystemRole, systemPrompt)] + middle + [LlmMessage(UserRole, userPrompt)];
    forall i | 0 < i < |r|
      ensures r[i].role != SystemRole
    {
      if i < |r| - 1 {
        assert r[i] == middle[i - 1];
      }
    }
  }

  // ---------------------------------------------------------------------
  // Plan and summary texts

  /** `${i + 1}. ${c}` */
  function NumberedLine(i: nat, v: Json): string {
    NatToString(i + 1) + ". " + ToText(v)
  }

  function NumberedLines(items: seq<Json>): (r: seq<string>)
    ensures |r| == |items|
    ensures forall i :: 0 <= i < |items| ==> r[i] == NumberedLine(i, items[i])
  {
    seq(|items|, i requires 0 <= i < |items| => NumberedLine(i, items[i]))
  }

  /** Whether `x?.map(...)` or `x?.join(...)` throws: `x` is present, not
      `null`, and not an array. */
  predicate ListThrows(o: Option<Json>) {
    o.Some? && !o.value.JNull? && !o.value.JArr?
  }

  /** `x?.map((c, i) => `${i + 1}. ${c}`).join('\n')` inside a template;
      `None` when it throws. */
  function NumberedListText(o: Option<Json>): (r: Option<string>)
    ensures r.None? <==> ListThrows(o)
    ensures !ListThrows(o) && !(o.Some? && o.value.JArr?) ==> r == Some("undefined")
  {
    if o.None? || o.value.JNull? then Some("undefined")
    else if o.value.JArr? then Some(Join(NumberedLines(o.value.items), "\n"))
    else None
  }

  const PlanHeader := "📋 **Implementation Plan:**\n\n**Understanding:** "
  const PlanFooter := "\n\n---\n\n✨ **Now generating your prototype...**\n"

  /** The plan message rendered from the decoded plan; `None` when rendering
      throws. */
  function PlanText(plan: Json): Option<string> {
    if plan.JNull? then None
    else
      var components := NumberedListText(Field(plan, "components"));
      var features := NumberedListText(Field(plan, "features"));
      var techStack := AgentPrompts.JoinedText(Field(plan, "techStack"), ", ");
      if components.None? || features.None? || techStack.None? then None
      else Some(PlanHeader + AgentPrompts.TemplateText(Field(plan, "understanding"))
        + PlanDetails(plan, components.value, features.value, techStack.value) + PlanFooter)
  }

  /** The plan message between the understanding and the footer. */
  function PlanDetails(plan: Json, components: string, features: string, techStack: string): string {
    var dataModel := Field(plan, "dataModel");
    "\n\n**Components to Build:**\n" + components
      + "\n\n**Key Features:**\n" + features
      + "\n\n" + (if TruthyOpt(dataModel) then "**Data Model:** " + ToText(dataModel.value) + "\n\n" else "")
      + "**Tech Stack:** " + techStack
      + "\n\n**Complexity:** " + AgentPrompts.TemplateText(Field(plan, "estimatedComplexity"))
  }

  /** Rendering the plan throws exactly for a `null` plan or a components,
      features or techStack member that is neither missing, `null` nor an
      array. */
  lemma PlanTextThrows(plan: Json)
    ensures PlanText(plan).None? <==> (plan.JNull? || ListThrows(Field(plan, "components"))
      || ListThrows(Field(plan, "features")) || ListThrows(Field(plan, "techStack")))
  {
  }

  /** A rendered plan opens with the plan heading and the understanding, and
      closes by announcing the generation. */
  lemma PlanTextFraming(plan: Json)
    requires PlanText(plan).Some?
    ensures StartsWith(PlanText(plan).value, PlanHeader + AgentPrompts.TemplateText(Field(plan, "understanding")))
    ensures EndsWith(PlanText(plan).value, PlanFooter)
  {
    var components := NumberedListText(Field(plan, "components")).value;
    var features := NumberedListText(Field(plan, "features")).value;
    var techStack := AgentPrompts.JoinedText(Field(plan, "techStack"), ", ").value;
    Framed(PlanHeader + AgentPrompts.TemplateText(Field(plan, "understanding")),
      PlanDetails(plan, components, features, techStack), PlanFooter);
  }

  /** The plan value kept for the prompt: the decoded plan, or `null` when the
      reply does not decode. */
  function PlanValue(decoded: Result<Json, string>): (plan: Json)
    ensures decoded.Failure? ==> plan == JNull
  {
    if decoded.Success? then decoded.value else JNull
  }

  /** The second delta of the plan message. */
  function PlanDelta(decoded: Result<Json, string>): (d: string)
    ensures decoded.Failure? ==> d == GeneratingDelta
  {
    if decoded.Success? && PlanText(decoded.value).Some? then PlanText(decoded.value).value
    else GeneratingDelta
  }

  const SummaryHeader := "\n\n✅ **Implementation Complete!**\n\n"
  const SuggestionsHeader := "**Next Steps & Suggestions:**\n"
  const SummaryTip := "\n\n💡 **Tip:** Click the \"💻 View Code\" button to see the generated HTML, CSS, and JavaScript!\n"

  /** The suggestions part of the summary: `suggestions.length > 0`, with
      JavaScript's conversion of an object's `length` member, decides whether
      there is a list, and `.map` then succeeds only on an array; `None` is the
      thrown `TypeError`. */
  function SuggestionsText(suggestions: Option<Json>): Option<string> {
    if !TruthyOpt(suggestions) then Some("")
    else if !LengthPositive(suggestions.value) then Some("")
    else match suggestions.value
      case JArr(items) => Some(SuggestionsHeader + Join(NumberedLines(items), "\n"))
      case _ => None
  }

  /** The implementation summary sent after a successful generation. */
  function SummaryText(parsed: Json): Option<string> {
    var explanation := TextOr(Field(parsed, "explanation"), DefaultExplanation);
    var list := SuggestionsText(Field(parsed, "suggestions"));
    if list.None? then None
    else Some(SummaryHeader + explanation + ("\n\n" + list.value) + SummaryTip)
  }

  /** The suggestions list: empty for a falsy value, numbered for a non-empty
      array, and a `TypeError` for a non-empty string. */
  lemma SuggestionsCases(suggestions: Option<Json>)
    ensures !TruthyOpt(suggestions) ==> SuggestionsText(suggestions) == Some("")
    ensures suggestions.Some? && suggestions.value.JArr? && suggestions.value.items != [] ==>
      SuggestionsText(suggestions) == Some(SuggestionsHeader + Join(NumberedLines(suggestions.value.items), "\n"))
    ensures suggestions.Some? && suggestions.value.JArr? && suggestions.value.items == [] ==>
      SuggestionsText(suggestions) == Some("")
    ensures suggestions.Some? && suggestions.value.JStr? && suggestions.value.s != "" ==> SuggestionsText(suggestions).None?
    ensures suggestions.Some? && suggestions.value.JObj? ==>
      (SuggestionsText(suggestions).None? <==> NumberPositive(Field(suggestions.value, "length")))
    ensures suggestions.Some? && (suggestions.value.JNum? || suggestions.value.JBool?) ==> SuggestionsText(suggestions) == Some("")
  {
  }

  /** An object whose `length` member converts to a positive number, such as
      the text "5" or `true`, passes the length test and then throws at
      `.map`. */
  lemma CoercedLengthThrows()
    ensures SuggestionsText(Some(JObj(map["length" := JStr("5")]))).None?
    ensures SuggestionsText(Some(JObj(map["length" := JBool(true)]))).None?
  {
    var text := JObj(map["length" := JStr("5")]);
    assert Field(text, "length") == Some(JStr("5"));
    FiveIsPositive();
    assert LengthPositive(text);
    var flag := JObj(map["length" := JBool(true)]);
    assert Field(flag, "length") == Some(JBool(true));
    assert LengthPositive(flag);
  }

  /** The summary throws only when the suggestions list does, and otherwise
      opens with the heading and the explanation, defaulting to 'Code
      generated successfully!', and closes with the tip. */
  lemma SummaryShape(parsed: Json)
    ensures SummaryText(parsed).None? <==> SuggestionsText(Field(parsed, "suggestions")).None?
    ensures SummaryText(parsed).Some? ==>
      StartsWith(SummaryText(parsed).value, SummaryHeader + TextOr(Field(parsed, "explanation"), DefaultExplanation))
      && EndsWith(SummaryText(parsed).value, SummaryTip)
  {
    var list := SuggestionsText(Field(parsed, "suggestions"));
    if list.Some? {
      Framed(SummaryHeader + TextOr(Field(parsed, "explanation"), DefaultExplanation), "\n\n" + list.value, SummaryTip);
    }
  }

  /** The `code_generated` value: html as sent, the rest defaulting to
      empty. */
  function CodeOf(parsed: Json): GeneratedCode {
    GeneratedCode(
      AgentPrompts.TemplateText(Field(parsed, "html")),
      TextOr(Field(parsed, "css"), ""),
      TextOr(Field(parsed, "js"), ""),
      TextOr(Field(parsed, "explanation"), ""),
      if TruthyOpt(Field(parsed, "suggestions")) then TextsOf(Field(parsed, "suggestions")) else [])
  }

  /** css, js and explanation default to '' and suggestions to []; string
      members are sent as they are. */
  lemma CodeDefaults(parsed: Json)
    ensures var c := CodeOf(parsed);
      && (!TruthyOpt(Field(parsed, "css")) ==> c.css == "")
      && (!TruthyOpt(Field(parsed, "js")) ==> c.js == "")
      && (!TruthyOpt(Field(parsed, "explanation")) ==> c.explanation == "")
      && (!TruthyOpt(Field(parsed, "suggestions")) ==> c.suggestions == [])
      && (Field(parsed, "html").Some? && Field(parsed, "html").value.JStr? ==> c.html == Field(parsed, "html").value.s)
      && (Field(parsed, "css").Some? && Field(parsed, "css").value.JStr? ==> c.css == Field(parsed, "css").value.s)
      && (Field(parsed, "js").Some? && Field(parsed, "js").value.JStr? ==> c.js == Field(parsed, "js").value.s)
  {
  }

  // ---------------------------------------------------------------------
  // Traces

  /** The events that replace a failed generation. */
  function Apology(id: string): (r: seq<Event>)
    ensures |r| == 3 && r[0] == TextMessageStart(id) && r[2] == TextMessageEnd(id)
  {
    [TextMessageStart(id), TextMessageContent(id, ApologyDelta), TextMessageEnd(id)]
  }

  /** The parse-and-report step of agent mode: it never throws; every failure
      inside it becomes the apology. */
  function Generation(content: string, decode: Decoder, message: string, id: string): (o: Outcome)
    ensures o.thrown.None?
    ensures o.saved.Some? ==> o.saved.value.prompt == message
  {
    match ParseAgentResponse(content, decode)
    case Failure(_) => Outcome(Apology(id), None, None)
    case Success(parsed) =>
      if !TruthyOpt(Field(parsed, "html")) then Outcome(Apology(id), None, None)
      else Reported(id, CacheEntry(message, CodeOf(parsed)), SummaryText(parsed))
  }

  /** The report after the cache write: the summary, the end of the message
      and `code_generated`, or the apology when the summary throws. */
  function Reported(id: string, entry: CacheEntry, summary: Option<string>): (o: Outcome)
    ensures o.thrown.None? && o.saved == Some(entry)
  {
    if summary.None? then Outcome(Apology(id), Some(entry), None)
    else Outcome([TextMessageContent(id, summary.value), TextMessageEnd(id), CodeGenerated(entry.code)], Some(entry), None)
  }

  /** A reply that does not parse, or parses without a truthy html, is
      answered with the apology and nothing is cached. */
  lemma GenerationApologises(content: string, decode: Decoder, message: string, id: string)
    requires var parsed := ParseAgentResponse(content, decode);
      parsed.Failure? || !TruthyOpt(Field(parsed.value, "html"))
    ensures Generation(content, decode, message, id) == Outcome(Apology(id), None, None)
  {
  }

  lemma ReportedMessageEvents(id: string, entry: CacheEntry, summary: Option<string>, code: GeneratedCode)
    ensures AllMessageEvents(Reported(id, entry, summary).events)
    ensures CodeGenerated(code) in Reported(id, entry, summary).events <==> summary.Some? && code == entry.code
  {
    if summary.Some? {
      assert Reported(id, entry, summary).events
        == [TextMessageContent(id, summary.value), TextMessageEnd(id), CodeGenerated(entry.code)];
    } else {
      assert Reported(id, entry, summary).events == Apology(id);
    }
  }

  lemma GenerationMessageEvents(content: string, decode: Decoder, message: string, id: string)
    ensures AllMessageEvents(Generation(content, decode, message, id).events)
  {
    var parsed := ParseAgentResponse(content, decode);
    if parsed.Success? && TruthyOpt(Field(parsed.value, "html")) {
      var p := parsed.value;
      var entry := CacheEntry(message, CodeOf(p));
      assert Generation(content, decode, message, id) == Reported(id, entry, SummaryText(p));
      ReportedMessageEvents(id, entry, SummaryText(p), CodeOf(p));
    } else {
      GenerationApologises(content, decode, message, id);
      ApologyMessageEvents(id);
    }
  }

  lemma ApologyMessageEvents(id: string)
    ensures AllMessageEvents(Apology(id))
  {
  }

  /** `code_generated` is sent exactly for a decoded response with a truthy
      html whose summary renders, and carries that response's code. */
  lemma CodeGeneratedOnlyWithHtml(content: string, decode: Decoder, message: string, id: string, code: GeneratedCode)
    ensures var parsed := ParseAgentResponse(content, decode);
      CodeGenerated(code) in Generation(content, decode, message, id).events <==>
        parsed.Success? && TruthyOpt(Field(parsed.value, "html")) && SummaryText(parsed.value).Some?
        && code == CodeOf(parsed.value)
  {
    var parsed := ParseAgentResponse(content, decode);
    if parsed.Success? && TruthyOpt(Field(parsed.value, "html")) {
      var p := parsed.value;
      assert Generation(content, decode, message, id) == Reported(id, CacheEntry(message, CodeOf(p)), SummaryText(p));
      ReportedMessageEvents(id, CacheEntry(message, CodeOf(p)), SummaryText(p), code);
    } else {
      GenerationApologises(content, decode, message, id);
      assert CodeGenerated(code) !in Apology(id);
    }
  }

  /** A progress dot for each chunk that arrives more than two seconds after
      the last dot (or the start). */
  function Dots(id: string, chunks: seq<Chunk>, last: int): (r: seq<Event>)
    ensures |r| <= |chunks|
    decreases |chunks|
  {
    if chunks == [] then []
    else if chunks[0].time - last > ProgressInterval then
      [TextMessageContent(id, ProgressDelta)] + Dots(id, chunks[1..], chunks[0].time)
    else Dots(id, chunks[1..], last)
  }

  lemma {:induction false} DotsAreProgress(id: string, chunks: seq<Chunk>, last: int)
    ensures forall e :: e in Dots(id, chunks, last) ==> e == TextMessageContent(id, ProgressDelta)
    decreases |chunks|
  {
    if chunks != [] {
      DotsAreProgress(id, chunks[1..], if chunks[0].time - last > ProgressInterval then chunks[0].time else last);
    }
  }

  /** The text the chunks add up to. */
  function Accumulated(chunks: seq<Chunk>): (r: string)
    decreases |chunks|
  {
    if chunks == [] then "" else Accumulated(chunks[..|chunks| - 1]) + chunks[|chunks| - 1].text
  }

  /** The streamed call: the dots written while chunks arrive and the content
      (`response?.content || accumulatedContent`) or what was thrown. */
  datatype StreamOutcome = StreamOutcome(events: seq<Event>, content: Result<string, Thrown>)

  function OrAccumulated(c: string, accumulated: string): string {
    if c != "" then c else accumulated
  }

  function StreamPhase(llm: Provider, request: LlmRequest, id: string, start: int): (s: StreamOutcome)
    ensures llm.streamComplete.None? ==> s == StreamOutcome([], llm.complete(request))
  {
    match llm.streamComplete
    case None => StreamOutcome([], llm.complete(request))
    case Some(stream) =>
      var reply := stream(request);
      var dots := Dots(id, reply.chunks, start);
      var accumulated := Accumulated(reply.chunks);
      match reply.response
      case Failure(t) => StreamOutcome(dots, Failure(t))
      case Success(Some(c)) => StreamOutcome(dots, Success(OrAccumulated(c, accumulated)))
      case Success(None) =>
        match llm.complete(request)
        case Failure(t) => StreamOutcome(dots, Failure(t))
        case Success(c) => StreamOutcome(dots, Success(OrAccumulated(c, accumulated)))
  }

  /** The plan request. */
  function PlanRequest(message: string): LlmRequest {
    var p := AgentPrompts.PlanPrompt(message);
    MessagesOnly([LlmMessage(SystemRole, p.systemPrompt), LlmMessage(UserRole, p.userPrompt)], None)
  }

  /** The code message of agent mode, from its start to its end: the
      generating delta, progress dots, then the summary or the apology. */
  function CodePhase(request: ChatRequest, llm: Provider, decode: Decoder, ids: RunIds, start: int, prompt: AgentPrompts.Prompt): (o: Outcome)
    ensures |o.events| >= 2 && o.events[0] == TextMessageStart(ids.messageId)
      && o.events[1] == TextMessageContent(ids.messageId, GeneratingDelta)
    ensures o.saved.Some? ==> o.thrown.None? && o.saved.value.prompt == request.message
  {
    var id := ids.messageId;
    var messages := BuildMessages(prompt.systemPrompt, request.conversationHistory, prompt.userPrompt);
    var e := [TextMessageStart(id), TextMessageContent(id, GeneratingDelta)];
    var s := StreamPhase(llm, MessagesOnly(messages, Some(StreamMaxTokens)), id, start);
    if s.content.Failure? then Outcome(e + s.events, None, Some(s.content.error))
    else
      var g := Generation(s.content.value, decode, request.message, id);
      Outcome(e + s.events + g.events, g.saved, None)
  }

  /** The code prompt, built with the plan (`null` when the plan reply does
      not decode); `None` when building it throws. */
  function CodePrompt(request: ChatRequest, decoded: Result<Json, string>): Option<AgentPrompts.Prompt> {
    AgentPrompts.GenerateAgentPrompt(request.message,
      Some(AgentPrompts.AgentContext(None, None, Some(PlanValue(decoded)))))
  }

  /** Agent mode after the plan reply arrived. */
  function AfterPlan(request: ChatRequest, llm: Provider, decode: Decoder, ids: RunIds, start: int, planReply: string): (o: Outcome)
    ensures |o.events| >= 2 && o.events[0] == TextMessageContent(ids.planMessageId, PlanDelta(decode(planReply)))
      && o.events[1] == TextMessageEnd(ids.planMessageId)
    ensures o.saved.Some? ==> o.thrown.None? && o.saved.value.prompt == request.message
  {
    var planId := ids.planMessageId;
    var decoded := decode(planReply);
    var e := [TextMessageContent(planId, PlanDelta(decoded)), TextMessageEnd(planId)];
    var prompt := CodePrompt(request, decoded);
    if prompt.None? then Outcome(e, None, Some(TypeErrorValue))
    else
      var c := CodePhase(request, llm, decode, ids, start, prompt.value);
      Outcome(e + c.events, c.saved, c.thrown)
  }

  /** `processAgentModeStreaming` */
  function AgentTrace(request: ChatRequest, llm: Provider, decode: Decoder, ids: RunIds, start: int): (o: Outcome)
    ensures |o.events| >= 2 && o.events[0] == TextMessageStart(ids.planMessageId)
      && o.events[1] == TextMessageContent(ids.planMessageId, AnalyzingDelta)
    ensures o.saved.Some? ==> o.thrown.None? && o.saved.value.prompt == request.message
  {
    var planId := ids.planMessageId;
    var e := [TextMessageStart(planId), TextMessageContent(planId, AnalyzingDelta)];
    match llm.complete(PlanRequest(request.message))
    case Failure(t) => Outcome(e, None, Some(t))
    case Success(planReply) =>
      var a := AfterPlan(request, llm, decode, ids, start, planReply);
      Outcome(e + a.events, a.saved, a.thrown)
  }

  /** `processChatModeStreaming` */
  function ChatTrace(request: ChatRequest, llm: Provider, ids: RunIds): (o: Outcome)
    ensures o.saved.None? && (o.thrown.None? <==> llm.complete(ChatRequestOf(request)).Success?)
  {
    var id := ids.messageId;
    match llm.complete(ChatRequestOf(request))
    case Failure(t) => Outcome([TextMessageStart(id)], None, Some(t))
    case Success(content) =>
      Outcome([TextMessageStart(id)] + ContentEvents(id, Chunks(content, ChatChunkSize)) + [TextMessageEnd(id)], None, None)
  }

  /** Chat mode sends the reply as deltas that reassemble it exactly. */
  lemma ChatDeliversReply(request: ChatRequest, llm: Provider, ids: RunIds)
    requires llm.complete(ChatRequestOf(request)).Success?
    ensures MessageText(ChatTrace(request, llm, ids).events, ids.messageId) == llm.complete(ChatRequestOf(request)).value
  {
    var id := ids.messageId;
    var content := llm.complete(ChatRequestOf(request)).value;
    var body := ContentEvents(id, Chunks(content, ChatChunkSize));
    ChunkedDeltasDeliverText(id, content, ChatChunkSize);
    MessageTextAppend([TextMessageStart(id)], body, id);
    MessageTextAppend([TextMessageStart(id)] + body, [TextMessageEnd(id)], id);
  }

  /** The chat-mode request: the chat prompt around the history. */
  function ChatRequestOf(request: ChatRequest): LlmRequest {
    var p := ChatPrompts.GenerateChatResponse(request.message, request.context);
    MessagesOnly(BuildMessages(p.systemPrompt, request.conversationHistory, p.userPrompt), None)
  }

  /** `request.projectId || uuidv4()` */
  function ThreadId(request: ChatRequest, ids: RunIds): string {
    if Present(request.projectId) then request.projectId.value else ids.fallbackThreadId
  }

  function ModeOutcome(request: ChatRequest, llm: Provider, decode: Decoder, ids: RunIds, start: int): (o: Outcome)
    ensures request.mode == Chat ==> o.saved.None?
  {
    if request.mode == Agent then AgentTrace(request, llm, decode, ids, start) else ChatTrace(request, llm, ids)
  }

  /** The event that ends a run: `RunFinished`, or `RunError` with the
      thrown message. */
  function Terminal(thread: string, runId: string, thrown: Option<Thrown>): (e: Event)
    ensures e.RunFinished? <==> thrown.None?
    ensures e.RunError? <==> thrown.Some?
  {
    if thrown.None? then RunFinished(thread, runId) else RunError(RunErrorMessage(thrown.value))
  }

  /** `processStreamingMessage`: the events written for one request. */
  function RunTrace(request: ChatRequest, llm: Provider, decode: Decoder, ids: RunIds, start: int): (r: seq<Event>)
    ensures |r| >= 2 && r[0] == RunStarted(ThreadId(request, ids), ids.runId)
  {
    var thread := ThreadId(request, ids);
    var o := ModeOutcome(request, llm, decode, ids, start);
    [RunStarted(thread, ids.runId)] + o.events + [Terminal(thread, ids.runId, o.thrown)]
  }

  lemma AppendMessageEvents(a: seq<Event>, b: seq<Event>)
    requires AllMessageEvents(a) && AllMessageEvents(b)
    ensures AllMessageEvents(a + b)
  {
  }

  lemma StreamPhaseDots(llm: Provider, request: LlmRequest, id: string, start: int)
    ensures forall e :: e in StreamPhase(llm, request, id, start).events ==> e == TextMessageContent(id, ProgressDelta)
  {
    if llm.streamComplete.Some? {
      DotsAreProgress(id, llm.streamComplete.value(request).chunks, start);
    }
  }

  lemma CodePhaseMessageEvents(request: ChatRequest, llm: Provider, decode: Decoder, ids: RunIds, start: int, prompt: AgentPrompts.Prompt)
    ensures AllMessageEvents(CodePhase(request, llm, decode, ids, start, prompt).events)
  {
    var messages := BuildMessages(prompt.systemPrompt, request.conversationHistory, prompt.userPrompt);
    var s := StreamPhase(llm, MessagesOnly(messages, Some(StreamMaxTokens)), ids.messageId, start);
    StreamPhaseDots(llm, MessagesOnly(messages, Some(StreamMaxTokens)), ids.messageId, start);
    var e := [TextMessageStart(ids.messageId), TextMessageContent(ids.messageId, GeneratingDelta)];
    AppendMessageEvents(e, s.events);
    if s.content.Success? {
      GenerationMessageEvents(s.content.value, decode, request.message, ids.messageId);
      AppendMessageEvents(e + s.events, Generation(s.content.value, decode, request.message, ids.messageId).events);
    }
  }

  lemma AfterPlanMessageEvents(request: ChatRequest, llm: Provider, decode: Decoder, ids: RunIds, start: int, planReply: string)
    ensures AllMessageEvents(AfterPlan(request, llm, decode, ids, start, planReply).events)
  {
    var planId := ids.planMessageId;
    var decoded := decode(planReply);
    var e := [TextMessageContent(planId, PlanDelta(decoded)), TextMessageEnd(planId)];
    var prompt := CodePrompt(request, decoded);
    if prompt.Some? {
      CodePhaseMessageEvents(request, llm, decode, ids, start, prompt.value);
      AppendMessageEvents(e, CodePhase(request, llm, decode, ids, start, prompt.value).events);
    }
  }

  lemma AgentMessageEvents(request: ChatRequest, llm: Provider, decode: Decoder, ids: RunIds, start: int)
    ensures AllMessageEvents(AgentTrace(request, llm, decode, ids, start).events)
  {
    var planId := ids.planMessageId;
    var e := [TextMessageStart(planId), TextMessageContent(planId, AnalyzingDelta)];
    var planReply := llm.complete(PlanRequest(request.message));
    if planReply.Success? {
      AfterPlanMessageEvents(request, llm, decode, ids, start, planReply.value);
      AppendMessageEvents(e, AfterPlan(request, llm, decode, ids, start, planReply.value).events);
    }
  }

  lemma ChatMessageEvents(request: ChatRequest, llm: Provider, ids: RunIds)
    ensures AllMessageEvents(ChatTrace(request, llm, ids).events)
  {
    var id := ids.messageId;
    var reply := llm.complete(ChatRequestOf(request));
    if reply.Success? {
      var body := ContentEvents(id, Chunks(reply.value, ChatChunkSize));
      assert AllMessageEvents(body) by {
        forall e | e in body
          ensures IsMessageEvent(e)
        {
          var k :| 0 <= k < |body| && body[k] == e;
        }
      }
      AppendMessageEvents([TextMessageStart(id)], body);
      AppendMessageEvents([TextMessageStart(id)] + body, [TextMessageEnd(id)]);
    }
  }

  /** Between its start and its end a run writes only message events and
      `code_generated`. */
  lemma ModeMessageEvents(request: ChatRequest, llm: Provider, decode: Decoder, ids: RunIds, start: int)
    ensures AllMessageEvents(ModeOutcome(request, llm, decode, ids, start).events)
  {
    if request.mode == Agent {
      AgentMessageEvents(request, llm, decode, ids, start);
    } else {
      ChatMessageEvents(request, llm, ids);
    }
  }

  lemma Bracketed(first: Event, middle: seq<Event>, last: Event)
    requires AllMessageEvents(middle)
    ensures var r := [first] + middle + [last];
      r[|r| - 1] == last && forall i :: 0 < i < |r| - 1 ==> IsMessageEvent(r[i])
  {
    var r := [first] + middle + [last];
    forall i | 0 < i < |r| - 1
      ensures IsMessageEvent(r[i])
    {
      assert r[i] == middle[i - 1];
    }
  }

  /** A run starts with `RunStarted` and ends with exactly one terminal
      event: `RunFinished` when nothing was thrown, `RunError` otherwise. */
  lemma RunFraming(request: ChatRequest, llm: Provider, decode: Decoder, ids: RunIds, start: int)
    ensures var r := RunTrace(request, llm, decode, ids, start);
      var o := ModeOutcome(request, llm, decode, ids, start);
      && (o.thrown.None? <==> r[|r| - 1] == RunFinished(ThreadId(request, ids), ids.runId))
      && (o.thrown.Some? <==> r[|r| - 1].RunError?)
      && forall i :: 0 < i < |r| - 1 ==> IsMessageEvent(r[i])
  {
    var thread := ThreadId(request, ids);
    var o := ModeOutcome(request, llm, decode, ids, start);
    ModeMessageEvents(request, llm, decode, ids, start);
    Bracketed(RunStarted(thread, ids.runId), o.events, Terminal(thread, ids.runId, o.thrown));
  }

  /** Within the code message only the LLM call can throw: a reply that does
      not parse, has no html or cannot be summarised ends with the apology,
      and the run then finishes normally. */
  lemma CodePhaseThrowsOnlyFromLlm(request: ChatRequest, llm: Provider, decode: Decoder, ids: RunIds, start: int, prompt: AgentPrompts.Prompt)
    ensures var messages := BuildMessages(prompt.systemPrompt, request.conversationHistory, prompt.userPrompt);
      var s := StreamPhase(llm, MessagesOnly(messages, Some(StreamMaxTokens)), ids.messageId, start);
      var o := CodePhase(request, llm, decode, ids, start, prompt);
      && (o.thrown.Some? <==> s.content.Failure?)
      && (s.content.Success? && ParseAgentResponse(s.content.value, decode).Failure? ==>
            o.events[|o.events| - 3..] == Apology(ids.messageId))
  {
  }

  /** A plan reply that does not decode is not fatal: the fallback delta is
      sent and the code prompt is built with a `null` plan, which adds no plan
      context and so cannot throw. */
  lemma PlanFailureNotFatal(request: ChatRequest, llm: Provider, decode: Decoder, ids: RunIds, start: int, planReply: string)
    requires decode(planReply).Failure?
    ensures var o := AfterPlan(request, llm, decode, ids, start, planReply);
      && o.events[0] == TextMessageContent(ids.planMessageId, GeneratingDelta)
      && CodePrompt(request, decode(planReply)).Some?
      && |o.events| >= 4 && o.events[2] == TextMessageStart(ids.messageId)
  {
    AgentPrompts.FalsyPlanAddsNothing(request.message, Some(JNull));
    AgentPrompts.NoContextUsesCreate(request.message);
  }

  // ---------------------------------------------------------------------
  // The service's methods, writing to the response

  /** The `streamComplete` callback run over the chunks as they arrive:
      the content is accumulated silently and a progress dot is written when
      more than two seconds passed since the last one. */
  method ReceiveChunks(sink: EventSink, id: string, chunks: seq<Chunk>, start: int) returns (accumulated: string)
    requires !sink.ended
    modifies sink
    ensures sink.events == old(sink.events) + Dots(id, chunks, start) && !sink.ended
    ensures accumulated == Accumulated(chunks)
  {
    accumulated := "";
    var lastProgressUpdate := start;
    var i := 0;
    while i < |chunks|
      invariant 0 <= i <= |chunks| && !sink.ended
      invariant accumulated == Accumulated(chunks[..i])
      invariant old(sink.events) + Dots(id, chunks, start) == sink.events + Dots(id, chunks[i..], lastProgressUpdate)
    {
      assert chunks[..i + 1][..i] == chunks[..i];
      assert chunks[i..][1..] == chunks[i + 1..];
      accumulated := accumulated + chunks[i].text;
      var now := chunks[i].time;
      if now - lastProgressUpdate > ProgressInterval {
        sink.Send(TextMessageContent(id, ProgressDelta));
        lastProgressUpdate := now;
      }
      i := i + 1;
    }
    assert chunks[..i] == chunks;
  }

  lemma Regroup3(a: seq<Event>, b: seq<Event>, c: seq<Event>)
    ensures a + b + c == a + (b + c)
  {
  }

  lemma Regroup(a: seq<Event>, b: seq<Event>, c: seq<Event>, d: seq<Event>)
    ensures a + b + c + d == a + (b + c + d)
  {
  }

  /** The events of one step, written in order. */
  method SendAll(sink: EventSink, events: seq<Event>)
    requires !sink.ended
    modifies sink
    ensures sink.events == old(sink.events) + events && !sink.ended
  {
    var k := 0;
    while k < |events|
      invariant 0 <= k <= |events| && !sink.ended
      invariant sink.events == old(sink.events) + events[..k]
    {
      assert events[..k + 1] == events[..k] + [events[k]];
      sink.Send(events[k]);
      k := k + 1;
    }
    assert events[..k] == events;
  }

  /** `this.llm.streamComplete?.(...) || await this.llm.complete(...)` and the
      choice of `response?.content || accumulatedContent`. */
  method StreamCall(sink: EventSink, llm: Provider, request: LlmRequest, id: string, start: int) returns (content: Result<string, Thrown>)
    requires !sink.ended
    modifies sink
    ensures sink.events == old(sink.events) + StreamPhase(llm, request, id, start).events && !sink.ended
    ensures content == StreamPhase(llm, request, id, start).content
  {
    if llm.streamComplete.None? {
      content := llm.complete(request);
      return;
    }
    var reply := llm.streamComplete.value(request);
    var accumulated := ReceiveChunks(sink, id, reply.chunks, start);
    if reply.response.Failure? {
      content := Failure(reply.response.error);
      return;
    }
    var response := reply.response.value;
    if response.None? {
      var completed := llm.complete(request);
      if completed.Failure? {
        content := completed;
        return;
      }
      response := Some(completed.value);
    }
    content := Success(if response.value != "" then response.value else accumulated);
  }

  /** `processChatModeStreaming` */
  method ProcessChatMode(sink: EventSink, request: ChatRequest, llm: Provider, ids: RunIds) returns (thrown: Option<Thrown>)
    requires !sink.ended
    modifies sink
    ensures sink.events == old(sink.events) + ChatTrace(request, llm, ids).events && !sink.ended
    ensures thrown == ChatTrace(request, llm, ids).thrown
  {
    var id := ids.messageId;
    sink.Send(TextMessageStart(id));
    var response := llm.complete(ChatRequestOf(request));
    if response.Failure? {
      return Some(response.error);
    }
    SendChunked(sink, id, response.value, ChatChunkSize);
    sink.Send(TextMessageEnd(id));
    thrown := None;
  }

  /** Steps 2 and 3 of agent mode: the code message. */
  method ProcessCode(sink: EventSink, request: ChatRequest, llm: Provider, decode: Decoder, ids: RunIds, start: int, prompt: AgentPrompts.Prompt)
    returns (saved: Option<CacheEntry>, thrown: Option<Thrown>)
    requires !sink.ended
    modifies sink
    ensures var o := CodePhase(request, llm, decode, ids, start, prompt);
      sink.events == old(sink.events) + o.events && saved == o.saved && thrown == o.thrown && !sink.ended
  {
    var id := ids.messageId;
    var messages := BuildMessages(prompt.systemPrompt, request.conversationHistory, prompt.userPrompt);
    var e := [TextMessageStart(id), TextMessageContent(id, GeneratingDelta)];
    SendAll(sink, e);
    var content := StreamCall(sink, llm, MessagesOnly(messages, Some(StreamMaxTokens)), id, start);
    ghost var dots := StreamPhase(llm, MessagesOnly(messages, Some(StreamMaxTokens)), id, start).events;
    if content.Failure? {
      Regroup3(old(sink.events), e, dots);
      return None, Some(content.error);
    }
    var g := Generation(content.value, decode, request.message, id);
    SendAll(sink, g.events);
    Regroup(old(sink.events), e, dots, g.events);
    saved, thrown := g.saved, None;
  }

  /** Agent mode once the plan reply arrived: the plan message's text and
      end, the code prompt, then the code message. */
  method ProcessAfterPlan(sink: EventSink, request: ChatRequest, llm: Provider, decode: Decoder, ids: RunIds, start: int, planReply: string)
    returns (saved: Option<CacheEntry>, thrown: Option<Thrown>)
    requires !sink.ended
    modifies sink
    ensures var o := AfterPlan(request, llm, decode, ids, start, planReply);
      sink.events == old(sink.events) + o.events && saved == o.saved && thrown == o.thrown && !sink.ended
  {
    var planId := ids.planMessageId;
    var decoded := decode(planReply);
    var e := [TextMessageContent(planId, PlanDelta(decoded)), TextMessageEnd(planId)];
    SendAll(sink, e);
    var prompt := CodePrompt(request, decoded);
    if prompt.None? {
      return None, Some(TypeErrorValue);
    }
    saved, thrown := ProcessCode(sink, request, llm, decode, ids, start, prompt.value);
    Regroup3(old(sink.events), e, CodePhase(request, llm, decode, ids, start, prompt.value).events);
  }

  /** `processAgentModeStreaming` */
  method ProcessAgentMode(sink: EventSink, request: ChatRequest, llm: Provider, decode: Decoder, ids: RunIds, start: int)
    returns (saved: Option<CacheEntry>, thrown: Option<Thrown>)
    requires !sink.ended
    modifies sink
    ensures var o := AgentTrace(request, llm, decode, ids, start);
      sink.events == old(sink.events) + o.events && saved == o.saved && thrown == o.thrown && !sink.ended
  {
    var planId := ids.planMessageId;
    var e := [TextMessageStart(planId), TextMessageContent(planId, AnalyzingDelta)];
    SendAll(sink, e);
    var planResponse := llm.complete(PlanRequest(request.message));
    if planResponse.Failure? {
      return None, Some(planResponse.error);
    }
    saved, thrown := ProcessAfterPlan(sink, request, llm, decode, ids, start, planResponse.value);
    Regroup3(old(sink.events), e, AfterPlan(request, llm, decode, ids, start, planResponse.value).events);
  }

  /** The mode dispatch inside `processStreamingMessage`'s `try`. */
  method ProcessMode(sink: EventSink, request: ChatRequest, llm: Provider, decode: Decoder, ids: RunIds, start: int)
    returns (saved: Option<CacheEntry>, thrown: Option<Thrown>)
    requires !sink.ended
    modifies sink
    ensures var o := ModeOutcome(request, llm, decode, ids, start);
      sink.events == old(sink.events) + o.events && saved == o.saved && thrown == o.thrown && !sink.ended
  {
    if request.mode == Agent {
      saved, thrown := ProcessAgentMode(sink, request, llm, decode, ids, start);
    } else {
      thrown := ProcessChatMode(sink, request, llm, ids);
      saved := None;
    }
  }

  /** `processStreamingMessage`: `RunStarted`, the mode's events, one terminal
      event, and the end of the response. */
  method ProcessStreamingMessage(sink: EventSink, request: ChatRequest, llm: Provider, decode: Decoder, ids: RunIds, start: int)
    returns (saved: Option<CacheEntry>)
    requires !sink.ended
    modifies sink
    ensures sink.events == old(sink.events) + RunTrace(request, llm, decode, ids, start)
    ensures saved == ModeOutcome(request, llm, decode, ids, start).saved
    ensures sink.ended
  {
    var threadId := ThreadId(request, ids);
    sink.Send(RunStarted(threadId, ids.runId));
    var thrown;
    saved, thrown := ProcessMode(sink, request, llm, decode, ids, start);
    var terminal := Terminal(threadId, ids.runId, thrown);
    sink.Send(terminal);
    sink.End();
    Regroup(old(sink.events), [RunStarted(threadId, ids.runId)], ModeOutcome(request, llm, decode, ids, start).events, [terminal]);
  }
}
