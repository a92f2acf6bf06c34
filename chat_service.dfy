/** The non-streaming `ChatService` (backend/src/services/chat.service.ts): the
    agent action chosen from the request, the three-strategy repair of an agent
    reply before decoding, the fallback when the reply carries no code, and
    the suggestions picked out of a chat reply's bullet lines. */
module ChatService {
  import opened Wrappers
  import opened Strings
  import opened JsValues
  import opened ChatTypes
  import opened LlmBase
  import JsonParser
  import ChatStream

  // ---------------------------------------------------------------------------
  // determineAgentAction

  datatype AgentAction = CreateAction | ModifyAction | FixAction

  /** `determineAgentAction`: create without current code, otherwise fix when
      the lower-cased message mentions a fix, a bug or an error, else modify. */
  function DetermineAgentAction(message: string, currentCode: Option<string>): (a: AgentAction)
    ensures a == CreateAction <==> currentCode.None? || currentCode.value == ""
    ensures a == FixAction <==>
      (currentCode.Some? && currentCode.value != ""
       && (Contains(ToLower(message), "fix") || Contains(ToLower(message), "bug") || Contains(ToLower(message), "error")))
  {
    var lowered := ToLower(message);
    if currentCode.Some? && currentCode.value != "" then
      if Contains(lowered, "fix") || Contains(lowered, "bug") || Contains(lowered, "error") then FixAction
      else ModifyAction
    else CreateAction
  }

  /** The action does not depend on the message's letter case. */
  lemma ActionIgnoresCase(message: string, currentCode: Option<string>)
    ensures DetermineAgentAction(ToUpper(message), currentCode) == DetermineAgentAction(message, currentCode)
  {
    LowerOfUpper(message);
  }

  // ---------------------------------------------------------------------------
  // parseAgentResponse: three repair strategies

  /** The truncation repair: when `{` outnumbers `}`, a closing quote if the
      number of quotes is odd, then the missing closing braces. */
  function Repair(s: string): string {
    var open := Count(s, '{');
    var close := Count(s, '}');
    if open > close then
      s + (if Count(s, '"') % 2 != 0 then "\"" else "") + Repeat('}', open - close)
    else s
  }

  /** After a repair the braces balance and the quotes pair up; nothing is
      touched when `{` does not outnumber `}`. */
  lemma RepairBalances(s: string)
    ensures Count(s, '{') <= Count(s, '}') ==> Repair(s) == s
    ensures Count(s, '{') > Count(s, '}') ==>
      var r := Repair(s);
      && StartsWith(r, s)
      && Count(r, '{') == Count(r, '}')
      && Count(r, '"') % 2 == 0
  {
    var open := Count(s, '{');
    var close := Count(s, '}');
    if open > close {
      var quote := if Count(s, '"') % 2 != 0 then "\"" else "";
      var braces := Repeat('}', open - close);
      var r := s + quote + braces;
      assert Repair(s) == r;
      assert r == s + (quote + braces);
      assert r[..|s|] == s;
      CountAppend(s + quote, braces, '{');
      CountAppend(s + quote, braces, '}');
      CountAppend(s + quote, braces, '"');
      CountAppend(s, quote, '{');
      CountAppend(s, quote, '}');
      CountAppend(s, quote, '"');
      JsonParser.CountRepeat('}', open - close, '{');
      JsonParser.CountRepeat('}', open - close, '}');
      JsonParser.CountRepeat('}', open - close, '"');
    }
  }

  /** Strategy 1: the trimmed reply when it starts with `{`, repaired unless it
      already ends with `}`. */
  function DirectText(content: string): (r: Option<string>)
    ensures r.Some? <==> StartsWith(Trim(content), "{")
  {
    var trimmed := Trim(content);
    if !StartsWith(trimmed, "{") then None
    else if EndsWith(trimmed, "}") then Some(trimmed)
    else Some(Repair(trimmed))
  }

  /** Strategy 3's match of `\{[\s\S]*$`: the text from the first `{` to the
      end. */
  function FirstObject(content: string): (r: Option<string>)
    ensures r.Some? <==> '{' in content
    ensures r.Some? ==> |r.value| > 0 && r.value[0] == '{' && EndsWith(content, r.value)
  {
    var i := CharFrom(content, '{', 0);
    if i == |content| then None
    else
      assert content[|content| - |content[i..]|..] == content[i..];
      Some(content[i..])
  }

  const AllStrategiesFailed := "Failed to parse agent response as JSON"

  /** The ```` ```json ```` block extraction of strategy 2 (a regular
      expression match): the block's inner text, if any. */
  type BlockMatcher = string -> Option<string>

  /** Whether a strategy's text exists and decodes. */
  predicate Decodes(text: Option<string>, decode: Decoder) {
    text.Some? && decode(text.value).Success?
  }

  /** `parseAgentResponse`: the first strategy whose text decodes wins; the
      error is thrown only when all three fail. */
  function ParseAgentResponse(content: string, decode: Decoder, block: BlockMatcher): (r: Result<Json, string>)
    ensures r.Failure? <==>
      !Decodes(DirectText(content), decode) && !Decodes(block(content), decode)
      && !Decodes(if FirstObject(content).Some? then Some(Repair(FirstObject(content).value)) else None, decode)
    ensures r.Failure? ==> r.error == AllStrategiesFailed
    ensures Decodes(DirectText(content), decode) ==> r == decode(DirectText(content).value)
  {
    var direct := DirectText(content);
    if Decodes(direct, decode) then decode(direct.value)
    else
      var fenced := block(content);
      if Decodes(fenced, decode) then decode(fenced.value)
      else
        var obj := FirstObject(content);
        if obj.Some? && decode(Repair(obj.value)).Success? then decode(Repair(obj.value))
        else Failure(AllStrategiesFailed)
  }

  /** A trimmed reply that is already a closed object is decoded as it is. */
  lemma ClosedObjectDecodedAsIs(content: string, decode: Decoder, block: BlockMatcher)
    requires StartsWith(Trim(content), "{") && EndsWith(Trim(content), "}")
    requires decode(Trim(content)).Success?
    ensures ParseAgentResponse(content, decode, block) == decode(Trim(content))
  {
  }

  /** When strategy 1 fails, the fenced block is tried before the first
      object. */
  lemma FencedBlockBeforeObject(content: string, decode: Decoder, block: BlockMatcher)
    requires !Decodes(DirectText(content), decode) && Decodes(block(content), decode)
    ensures ParseAgentResponse(content, decode, block) == decode(block(content).value)
  {
  }

  // ---------------------------------------------------------------------------
  // processAgentMode: reply to code, with the raw-text fallback

  /** What `processAgentMode` returns besides the message bookkeeping. */
  datatype AgentReply = AgentReply(html: string, css: string, js: string, explanation: string, suggestions: seq<string>)

  const FallbackExplanation := "Generated code (parsing failed, using raw response)"
  const FallbackSuggestions: seq<string> := ["Try rephrasing your request", "Be more specific about what you want"]
  const ParsedExplanation := "Code generated successfully"

  /** Whether the decoded reply carries some code. */
  predicate HasCode(parsed: Json) {
    TruthyOpt(Field(parsed, "html")) || TruthyOpt(Field(parsed, "css")) || TruthyOpt(Field(parsed, "js"))
  }

  /** The generated code, explanation and suggestions for the LLM's reply. */
  function AgentReplyOf(content: string, decode: Decoder, block: BlockMatcher): AgentReply {
    var parsed := ParseAgentResponse(content, decode, block);
    if parsed.Failure? || !HasCode(parsed.value) then
      AgentReply(content, "", "", FallbackExplanation, FallbackSuggestions)
    else
      var p := parsed.value;
      var suggestions := Field(p, "suggestions");
      AgentReply(TextOr(Field(p, "html"), ""), TextOr(Field(p, "css"), ""), TextOr(Field(p, "js"), ""),
        TextOr(Field(p, "explanation"), ParsedExplanation), TextsOf(suggestions))
  }

  /** A reply that does not decode, or decodes without html, css and js, is
      kept whole as the html, with the fixed explanation and suggestions. */
  lemma RawReplyFallback(content: string, decode: Decoder, block: BlockMatcher)
    requires var parsed := ParseAgentResponse(content, decode, block);
      parsed.Failure? || !HasCode(parsed.value)
    ensures AgentReplyOf(content, decode, block) == AgentReply(content, "", "", FallbackExplanation, FallbackSuggestions)
  {
  }

  /** A decoded reply with code: missing members become empty, and the
      suggestions are used only when they are an array. */
  lemma DecodedReply(content: string, decode: Decoder, block: BlockMatcher)
    requires var parsed := ParseAgentResponse(content, decode, block);
      parsed.Success? && HasCode(parsed.value)
    ensures var p := ParseAgentResponse(content, decode, block).value;
      var r := AgentReplyOf(content, decode, block);
      && (!TruthyOpt(Field(p, "html")) ==> r.html == "")
      && (!TruthyOpt(Field(p, "css")) ==> r.css == "")
      && (!TruthyOpt(Field(p, "js")) ==> r.js == "")
      && (!TruthyOpt(Field(p, "explanation")) ==> r.explanation == ParsedExplanation)
      && (Field(p, "suggestions").None? || !Field(p, "suggestions").value.JArr? ==> r.suggestions == [])
      && (Field(p, "suggestions").Some? && Field(p, "suggestions").value.JArr? ==>
            |r.suggestions| == |Field(p, "suggestions").value.items|)
  {
  }

  // ---------------------------------------------------------------------------
  // extractSuggestions

  /** A list marker of `^[\-\*\d\.]\s+`. */
  predicate IsMarker(c: char) {
    c == '-' || c == '*' || c == '.' || IsDigit(c)
  }

  /** The line starts with a marker immediately followed by white space. */
  predicate IsBulletLine(line: string) {
    |line| >= 2 && IsMarker(line[0]) && IsSpace(line[1])
  }

  /** The line with its marker and the following white space removed, trimmed. */
  function BulletText(line: string): string
    requires IsBulletLine(line)
  {
    Trim(line[1..])
  }

  predicate Kept(line: string) {
    IsBulletLine(line) && 10 < |BulletText(line)| < 100
  }

  /** Every suggestion the lines offer, in line order. */
  function Candidates(lines: seq<string>): (r: seq<string>)
    ensures |r| <= |lines|
    ensures forall i :: 0 <= i < |r| ==> 10 < |r[i]| < 100
    decreases |lines|
  {
    if lines == [] then []
    else
      var last := lines[|lines| - 1];
      Candidates(lines[..|lines| - 1]) + (if Kept(last) then [BulletText(last)] else [])
  }

  /** The suggestion is the text of one of the lines. */
  predicate FromBulletLine(suggestion: string, lines: seq<string>) {
    exists j :: 0 <= j < |lines| && Kept(lines[j]) && suggestion == BulletText(lines[j])
  }

  /** Each candidate is the text of a bullet line. */
  lemma {:induction false} CandidatesFromBulletLines(lines: seq<string>)
    ensures forall i :: 0 <= i < |Candidates(lines)| ==> FromBulletLine(Candidates(lines)[i], lines)
    decreases |lines|
  {
    if lines != [] {
      var init := lines[..|lines| - 1];
      var last := lines[|lines| - 1];
      CandidatesFromBulletLines(init);
      var c := Candidates(lines);
      assert c == Candidates(init) + (if Kept(last) then [BulletText(last)] else []);
      forall i | 0 <= i < |c|
        ensures FromBulletLine(c[i], lines)
      {
        if i < |Candidates(init)| {
          assert FromBulletLine(Candidates(init)[i], init);
          var j :| 0 <= j < |init| && Kept(init[j]) && Candidates(init)[i] == BulletText(init[j]);
          assert lines[j] == init[j];
        } else {
          var j := |lines| - 1;
          assert Kept(lines[j]) && c[i] == BulletText(lines[j]);
        }
      }
    }
  }

  /** `extractSuggestions`: the first three candidates of the reply's lines. */
  function Suggestions(content: string): (r: seq<string>)
    ensures |r| <= 3
    ensures forall i :: 0 <= i < |r| ==> 10 < |r[i]| < 100
  {
    var c := Candidates(SplitChar(content, '\n'));
    c[..Min(3, |c|)]
  }

  /** The suggestions are the leading candidates, in line order, and all of
      them when there are at most three. */
  lemma SuggestionsArePrefix(content: string)
    ensures var c := Candidates(SplitChar(content, '\n'));
      var r := Suggestions(content);
      r == c[..|r|] && (|c| <= 3 ==> r == c)
  {
  }

  /** The loop over the lines, then the slice to three. */
  method ExtractSuggestions(content: string) returns (r: seq<string>)
    ensures r == Suggestions(content)
  {
    var lines := SplitChar(content, '\n');
    var found: seq<string> := [];
    var i := 0;
    while i < |lines|
      invariant 0 <= i <= |lines|
      invariant found == Candidates(lines[..i])
    {
      var line := lines[i];
      assert lines[..i + 1][..i] == lines[..i];
      if |line| >= 2 && IsMarker(line[0]) && IsSpace(line[1]) {
        var suggestion := Trim(line[1..]);
        if |suggestion| > 10 && |suggestion| < 100 {
          found := found + [suggestion];
        }
      }
      i := i + 1;
    }
    assert lines[..i] == lines;
    r := if |found| > 3 then found[..3] else found;
  }

  // ---------------------------------------------------------------------------
  // processMessage

  /** The `code_update` action of an agent response. */
  datatype CodeUpdate = CodeUpdate(description: string, html: string, css: string, js: string)

  /** The `ChatResponse`: the assistant message's content and mode, the
      generated code of agent mode, the suggestions and the actions. */
  datatype ChatResponse = ChatResponse(
    content: string,
    mode: ChatMode,
    generatedCode: Option<AgentReply>,
    suggestions: seq<string>,
    actions: seq<CodeUpdate>)

  /** `processChatMode` after the LLM replied: the reply is the message, and
      its bullet lines give the suggestions. */
  function ChatModeResponse(content: string): (r: ChatResponse)
    ensures r.content == content && r.mode == Chat && r.generatedCode.None? && r.actions == []
    ensures |r.suggestions| <= 3
  {
    ChatResponse(content, Chat, None, Suggestions(content), [])
  }

  /** `processAgentMode` after the LLM replied: the explanation is the
      message, and the one action carries the code it describes. */
  function AgentModeResponse(content: string, decode: Decoder, block: BlockMatcher): (r: ChatResponse)
    ensures r.mode == Agent && r.generatedCode.Some?
    ensures r.content == r.generatedCode.value.explanation
    ensures r.suggestions == r.generatedCode.value.suggestions
    ensures var g := r.generatedCode.value; r.actions == [CodeUpdate(g.explanation, g.html, g.css, g.js)]
  {
    var g := AgentReplyOf(content, decode, block);
    ChatResponse(g.explanation, Agent, Some(g), g.suggestions, [CodeUpdate(g.explanation, g.html, g.css, g.js)])
  }

  /** `processMessage`: chat mode asks with the chat prompt and history; any
      other mode asks with `agentRequest`, the request the agent prompt
      builds. A rejected completion is rethrown. */
  function ProcessMessage(request: ChatRequest, llm: ChatStream.Provider, decode: Decoder, block: BlockMatcher, agentRequest: LlmRequest)
    : (r: Result<ChatResponse, ChatStream.Thrown>)
    ensures r.Success? ==> r.value.mode == request.mode
    ensures request.mode == Chat && llm.complete(ChatStream.ChatRequestOf(request)).Success? ==>
      r == Success(ChatModeResponse(llm.complete(ChatStream.ChatRequestOf(request)).value))
    ensures request.mode == Agent && llm.complete(agentRequest).Success? ==>
      r == Success(AgentModeResponse(llm.complete(agentRequest).value, decode, block))
  {
    if request.mode == Chat then
      match llm.complete(ChatStream.ChatRequestOf(request))
      case Failure(t) => Failure(t)
      case Success(content) => Success(ChatModeResponse(content))
    else
      match llm.complete(agentRequest)
      case Failure(t) => Failure(t)
      case Success(content) => Success(AgentModeResponse(content, decode, block))
  }

  /** The service fails exactly when the completion it asks for rejects, and
      then with the same value. */
  lemma ProcessMessageFails(request: ChatRequest, llm: ChatStream.Provider, decode: Decoder, block: BlockMatcher, agentRequest: LlmRequest)
    ensures var asked := if request.mode == Chat then ChatStream.ChatRequestOf(request) else agentRequest;
      var r := ProcessMessage(request, llm, decode, block, agentRequest);
      (r.Failure? <==> llm.complete(asked).Failure?)
      && (r.Failure? ==> r.error == llm.complete(asked).error)
  {
  }

  /** A chat-mode answer is the reply itself with at most three suggestions
      taken from it. */
  lemma ChatAnswerIsReply(request: ChatRequest, llm: ChatStream.Provider, decode: Decoder, block: BlockMatcher, agentRequest: LlmRequest)
    requires request.mode == Chat && llm.complete(ChatStream.ChatRequestOf(request)).Success?
    ensures var content := llm.complete(ChatStream.ChatRequestOf(request)).value;
      var r := ProcessMessage(request, llm, decode, block, agentRequest);
      r.Success? && r.value.content == content && r.value.suggestions == Suggestions(content)
  {
  }
}
