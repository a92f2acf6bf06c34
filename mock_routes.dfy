/** The mock chat routes (backend/src/routes/chat-mock.routes.ts): a streaming
    endpoint that answers from the response cache or from two built-in
    payloads without calling a model, the listing of the cached responses and
    the clearing of the cache.  The cache directory is a parameter, as are the
    run, thread and message ids the route draws from `uuidv4`. */
module MockRoutes {
  import opened Wrappers
  import opened Strings
  import opened JsValues
  import opened AgUi
  import ResponseCache
  import ChatTypes
  import ChatStore

  /** The length of the explanation deltas. */
  const ChunkSize: nat := 20

  /** The message of the `error` event written when the route throws. */
  const ServerError: string := "Internal server error"

  /** A built-in payload as the object the route sends. */
  function Payload(html: string, css: string, js: string, explanation: string, suggestions: seq<string>): (p: Json)
    ensures p.JObj? && Field(p, "html") == Some(JStr(html)) && Field(p, "explanation") == Some(JStr(explanation))
  {
    JObj(map[
      "html" := JStr(html),
      "css" := JStr(css),
      "js" := JStr(js),
      "explanation" := JStr(explanation),
      "suggestions" := JArr(seq(|suggestions|, i requires 0 <= i < |suggestions| => JStr(suggestions[i])))])
  }

  const ButtonExplanation: string := "Created a beautiful gradient button with hover effects and click handler."
  const LandingExplanation: string := "Created a modern landing page with hero section and feature cards."

  /** `mockResponses.button` (its style sheet shortened to the first rule's
      selector). */
  const ButtonMock: Json := Payload(
    "<button class=\"cta-button\">Click Me!</button>",
    ".cta-button { }",
    "document.querySelector('.cta-button').addEventListener('click', () => {\n  alert('Button clicked!');\n});",
    ButtonExplanation,
    ["Add more button variants", "Add loading state", "Add icon support"])

  /** `mockResponses.landing` (its page and style sheet shortened to the
      outermost element and the first rule). */
  const LandingMock: Json := Payload(
    "<div class=\"landing-page\"></div>",
    ":root { }",
    "console.log('Landing page loaded!');\n\ndocument.querySelector('.cta-button').addEventListener('click', () => {\n  alert('Ready to get started!');\n});",
    LandingExplanation,
    ["Add pricing section", "Add testimonials", "Add footer", "Add animations"])

  /** The fallback when the cache has nothing: the landing page when the
      lower-cased message mentions "landing" or "page", the button otherwise. */
  predicate AsksForLanding(message: string) {
    Contains(ToLower(message), "landing") || Contains(ToLower(message), "page")
  }

  /** The payload the route streams: the cache's best match when it is truthy,
      else a built-in one. */
  function SelectPayload(dir: seq<ResponseCache.CacheFile>, message: string): Json {
    var cached := ResponseCache.BestMatch(dir, message);
    if TruthyOpt(cached) then cached.value
    else if AsksForLanding(message) then LandingMock
    else ButtonMock
  }

  /** A truthy cached match always wins; without one the route picks the
      landing page exactly when the message mentions "landing" or "page" in
      any letter case, and the button exactly when it does not. */
  lemma PayloadChoice(dir: seq<ResponseCache.CacheFile>, message: string)
    ensures var cached := ResponseCache.BestMatch(dir, message);
      TruthyOpt(cached) ==> SelectPayload(dir, message) == cached.value
    ensures var cached := ResponseCache.BestMatch(dir, message);
      !TruthyOpt(cached) ==>
        && (SelectPayload(dir, message) == LandingMock <==> AsksForLanding(message))
        && (SelectPayload(dir, message) == ButtonMock <==> !AsksForLanding(message))
    ensures AsksForLanding(ToUpper(message)) <==> AsksForLanding(message)
  {
    assert Field(LandingMock, "html") != Field(ButtonMock, "html") by {
      assert "<div class=\"landing-page\"></div>"[1] != "<button class=\"cta-button\">Click Me!</button>"[1];
    }
    LowerOfUpper(message);
  }

  /** What `mockData.explanation` gives the chunk loop: a text to cut into
      deltas, or a throw.  A missing or null explanation throws on
      `.length`; any other value that is not a text throws on `.substring`
      exactly when its `length` passes `0 < length` (a non-empty array, or an
      object whose `length` member converts to a positive number), and
      otherwise sends no delta. */
  datatype Explanation = Deltas(text: string) | Throws

  function ExplanationOf(payload: Json): (r: Explanation)
    ensures var e := Field(payload, "explanation"); e.Some? && e.value.JStr? ==> r == Deltas(e.value.s)
    ensures Field(payload, "explanation") in {None, Some(JNull)} ==> r == Throws
    ensures var e := Field(payload, "explanation"); e.Some? && !e.value.JNull? && !e.value.JStr? ==>
      (r == Throws <==> LengthPositive(e.value)) && (r != Throws ==> r == Deltas(""))
  {
    match Field(payload, "explanation")
    case None => Throws
    case Some(v) =>
      if v.JNull? then Throws
      else if v.JStr? then Deltas(v.s)
      else if LengthPositive(v) then Throws
      else Deltas("")
  }

  /** An explanation object with a positive `length` throws at `.substring`. */
  lemma ObjectExplanationThrows()
    ensures ExplanationOf(JObj(map["explanation" := JObj(map["length" := JNum(3)])])) == Throws
  {
  }

  /** The `code_generated` value as the client reads its parts. */
  function CodeValue(payload: Json): GeneratedCode {
    GeneratedCode(
      TextOr(Field(payload, "html"), ""),
      TextOr(Field(payload, "css"), ""),
      TextOr(Field(payload, "js"), ""),
      TextOr(Field(payload, "explanation"), ""),
      TextsOf(Field(payload, "suggestions")))
  }

  /** The events that close a completed run: the message end, the code and
      the run finish. */
  function Closing(payload: Json, threadId: string, runId: string, messageId: string): seq<Event> {
    [TextMessageEnd(messageId), CodeGenerated(CodeValue(payload)), RunFinished(threadId, runId)]
  }

  /** The events the route writes once the payload is chosen: the message
      start, then either the deltas, the message end, the code and the run
      finish, or the `error` event. */
  function Reply(payload: Json, threadId: string, runId: string, messageId: string): seq<Event> {
    var start := [TextMessageStart(messageId)];
    match ExplanationOf(payload)
    case Throws => start + [ErrorEvent(ServerError)]
    case Deltas(text) =>
      start + ContentEvents(messageId, Chunks(text, ChunkSize))
      + Closing(payload, threadId, runId, messageId)
  }

  /** The events the route writes for `payload`. */
  function Trace(payload: Json, threadId: string, runId: string, messageId: string): seq<Event> {
    [RunStarted(threadId, runId)] + Reply(payload, threadId, runId, messageId)
  }

  /** Events that carry no delta spell nothing. */
  lemma {:induction false} NoDeltaNoText(events: seq<Event>, id: string)
    requires forall k :: 0 <= k < |events| ==> !events[k].TextMessageContent?
    ensures MessageText(events, id) == ""
  {
    if events != [] {
      NoDeltaNoText(events[1..], id);
    }
  }

  /** The three parts of a completed run. */
  lemma TraceParts(payload: Json, threadId: string, runId: string, messageId: string)
    requires ExplanationOf(payload).Deltas?
    ensures Trace(payload, threadId, runId, messageId)
      == [RunStarted(threadId, runId), TextMessageStart(messageId)]
         + ContentEvents(messageId, Chunks(ExplanationOf(payload).text, ChunkSize))
         + Closing(payload, threadId, runId, messageId)
  {
    var content := ContentEvents(messageId, Chunks(ExplanationOf(payload).text, ChunkSize));
    var closing := Closing(payload, threadId, runId, messageId);
    var reply := [TextMessageStart(messageId)] + content + closing;
    assert Reply(payload, threadId, runId, messageId) == reply;
    assert [RunStarted(threadId, runId)] + reply == [RunStarted(threadId, runId), TextMessageStart(messageId)] + content + closing;
  }

  /** A run that completes: it starts the run and then the message, carries
      only that message's content, ends the message, sends the code and
      finishes the same run, with no error event. */
  lemma SuccessfulRunOrder(payload: Json, threadId: string, runId: string, messageId: string)
    requires ExplanationOf(payload).Deltas?
    ensures var t := Trace(payload, threadId, runId, messageId);
      && |t| >= 5
      && t[0] == RunStarted(threadId, runId)
      && t[1] == TextMessageStart(messageId)
      && (forall k :: 2 <= k < |t| - 3 ==> t[k].TextMessageContent? && t[k].messageId == messageId)
      && t[|t| - 3] == TextMessageEnd(messageId)
      && t[|t| - 2] == CodeGenerated(CodeValue(payload))
      && t[|t| - 1] == RunFinished(threadId, runId)
      && (forall k :: 0 <= k < |t| ==> !t[k].ErrorEvent?)
  {
    var content := ContentEvents(messageId, Chunks(ExplanationOf(payload).text, ChunkSize));
    var t := Trace(payload, threadId, runId, messageId);
    TraceParts(payload, threadId, runId, messageId);
    assert |t| == |content| + 5;
    forall k | 2 <= k < |t| - 3
      ensures t[k] == content[k - 2]
    {
    }
  }

  /** The deltas of a completed run are non-empty, at most 20 characters,
      all but the last exactly 20, and they spell the explanation. */
  lemma SuccessfulRunDeltas(payload: Json, threadId: string, runId: string, messageId: string)
    requires ExplanationOf(payload).Deltas?
    ensures var t := Trace(payload, threadId, runId, messageId);
      && |t| >= 5
      && (forall k :: 2 <= k < |t| - 3 ==>
            (t[k].TextMessageContent? && 0 < |t[k].delta| <= ChunkSize && (k < |t| - 4 ==> |t[k].delta| == ChunkSize)))
      && MessageText(t, messageId) == ExplanationOf(payload).text
  {
    RunDeltaSizes(payload, threadId, runId, messageId);
    RunSpellsExplanation(payload, threadId, runId, messageId);
  }

  /** The deltas of a completed run have the chunk sizes. */
  lemma RunDeltaSizes(payload: Json, threadId: string, runId: string, messageId: string)
    requires ExplanationOf(payload).Deltas?
    ensures var t := Trace(payload, threadId, runId, messageId);
      && |t| >= 5
      && (forall k :: 2 <= k < |t| - 3 ==>
            (t[k].TextMessageContent? && 0 < |t[k].delta| <= ChunkSize && (k < |t| - 4 ==> |t[k].delta| == ChunkSize)))
  {
    var text := ExplanationOf(payload).text;
    var pieces := Chunks(text, ChunkSize);
    var content := ContentEvents(messageId, pieces);
    var t := Trace(payload, threadId, runId, messageId);
    TraceParts(payload, threadId, runId, messageId);
    assert |t| == |content| + 5;
    ChunksSizes(text, ChunkSize);
    forall k | 2 <= k < |t| - 3
      ensures t[k] == TextMessageContent(messageId, pieces[k - 2])
    {
    }
  }

  /** The deltas of a completed run spell the explanation. */
  lemma RunSpellsExplanation(payload: Json, threadId: string, runId: string, messageId: string)
    requires ExplanationOf(payload).Deltas?
    ensures MessageText(Trace(payload, threadId, runId, messageId), messageId) == ExplanationOf(payload).text
  {
    var text := ExplanationOf(payload).text;
    var content := ContentEvents(messageId, Chunks(text, ChunkSize));
    var opening := [RunStarted(threadId, runId), TextMessageStart(messageId)];
    var closing := Closing(payload, threadId, runId, messageId);
    TraceParts(payload, threadId, runId, messageId);
    MessageTextAppend(opening, content, messageId);
    MessageTextAppend(opening + content, closing, messageId);
    ChunkedDeltasDeliverText(messageId, text, ChunkSize);
    NoDeltaNoText(opening, messageId);
    NoDeltaNoText(closing, messageId);
  }

  /** A run that throws: the events already written stay, followed by exactly
      one `error` event, and no code or finish is sent. */
  lemma FailedRun(payload: Json, threadId: string, runId: string, messageId: string)
    requires ExplanationOf(payload).Throws?
    ensures Trace(payload, threadId, runId, messageId)
      == [RunStarted(threadId, runId), TextMessageStart(messageId), ErrorEvent(ServerError)]
    ensures forall k :: 0 <= k < |Trace(payload, threadId, runId, messageId)| ==>
      !Trace(payload, threadId, runId, messageId)[k].CodeGenerated?
      && !Trace(payload, threadId, runId, messageId)[k].RunFinished?
  {
  }

  /** Both built-in payloads stream their explanation. */
  lemma MocksComplete()
    ensures ExplanationOf(ButtonMock) == Deltas(ButtonExplanation)
    ensures ExplanationOf(LandingMock) == Deltas(LandingExplanation)
    ensures |Chunks(ButtonExplanation, ChunkSize)| == 4
  {
    ChunksCount(ButtonExplanation, ChunkSize);
  }

  /** `POST /api/chat/mock`: the run start, the payload lookup, the message
      start, the explanation in 20-character deltas, the message end, the
      code and the run finish, then the end of the response; or, when the
      explanation cannot be read, the `error` event and the end. */
  method StreamMock(sink: EventSink, dir: seq<ResponseCache.CacheFile>, message: string,
                    threadId: string, runId: string, messageId: string)
    requires !sink.ended
    modifies sink
    ensures sink.ended
    ensures sink.events == old(sink.events) + Trace(SelectPayload(dir, message), threadId, runId, messageId)
  {
    ghost var before := sink.events;
    sink.Send(RunStarted(threadId, runId));
    var payload := ChoosePayload(dir, message);
    SendReply(sink, payload, threadId, runId, messageId);
    StartThenReply(before, payload, threadId, runId, messageId);
  }

  /** Writing the run start and then the reply writes the trace. */
  lemma StartThenReply(before: seq<Event>, payload: Json, threadId: string, runId: string, messageId: string)
    ensures before + [RunStarted(threadId, runId)] + Reply(payload, threadId, runId, messageId)
      == before + Trace(payload, threadId, runId, messageId)
  {
  }

  /** The lookup of `POST /api/chat/mock`: the cached match, or the
      built-in fallback. */
  method ChoosePayload(dir: seq<ResponseCache.CacheFile>, message: string) returns (payload: Json)
    ensures payload == SelectPayload(dir, message)
  {
    var mockData := ResponseCache.FindBestMatch(dir, message);
    if !TruthyOpt(mockData) {
      var messageLower := ToLower(message);
      payload := ButtonMock;
      if Contains(messageLower, "landing") || Contains(messageLower, "page") {
        payload := LandingMock;
      }
    } else {
      payload := mockData.value;
    }
  }

  /** The writes of `POST /api/chat/mock` after the lookup, ending the
      response. */
  method SendReply(sink: EventSink, payload: Json, threadId: string, runId: string, messageId: string)
    requires !sink.ended
    modifies sink
    ensures sink.ended
    ensures sink.events == old(sink.events) + Reply(payload, threadId, runId, messageId)
  {
    ghost var before := sink.events;
    sink.Send(TextMessageStart(messageId));
    var explanation := ExplanationOf(payload);
    if explanation.Throws? {
      sink.Send(ErrorEvent(ServerError));
      sink.End();
      AppendAssoc(before, [TextMessageStart(messageId)], [ErrorEvent(ServerError)]);
    } else {
      SendChunked(sink, messageId, explanation.text, ChunkSize);
      FinishRun(sink, payload, threadId, runId, messageId);
      var start := [TextMessageStart(messageId)];
      var content := ContentEvents(messageId, Chunks(explanation.text, ChunkSize));
      var closing := Closing(payload, threadId, runId, messageId);
      assert Reply(payload, threadId, runId, messageId) == start + content + closing;
      AppendAssoc(before, start + content, closing);
      AppendAssoc(before, start, content);
    }
  }

  /** The closing writes of a completed run, ending the response. */
  method FinishRun(sink: EventSink, payload: Json, threadId: string, runId: string, messageId: string)
    requires !sink.ended
    modifies sink
    ensures sink.ended
    ensures sink.events == old(sink.events) + Closing(payload, threadId, runId, messageId)
  {
    sink.Send(TextMessageEnd(messageId));
    sink.Send(CodeGenerated(CodeValue(payload)));
    sink.Send(RunFinished(threadId, runId));
    sink.End();
  }

  /** The closing events reach the client as one code event between two
      ignored ones, which leave the view as it is. */
  lemma ClosingReceived(w: ChatStore.View, payload: Json, threadId: string, runId: string, messageId: string,
                        c: ChatStore.Captured)
    ensures var closing := Closing(payload, threadId, runId, messageId);
      ChatStore.Reduce(w, ChatStore.Receive(closing), c)
      == ChatStore.Step(w, ChatStore.Received(CodeGenerated(CodeValue(payload))), c)
  {
    var closing := Closing(payload, threadId, runId, messageId);
    var ends := ChatStore.Receive(closing);
    assert ends == [ChatStore.Ignored, ChatStore.Received(closing[1]), ChatStore.Ignored] by {
      assert closing == [closing[0]] + [closing[1]] + [closing[2]];
      ChatStore.ReceiveAppend([closing[0]] + [closing[1]], [closing[2]]);
      ChatStore.ReceiveAppend([closing[0]], [closing[1]]);
      ChatStore.ReceiveOne(closing[0]);
      ChatStore.ReceiveOne(closing[1]);
      ChatStore.ReceiveOne(closing[2]);
    }
    assert ends[..2][..1][..0] == [];
    assert ChatStore.Reduce(w, ends[..2][..1], c) == w;
    assert ChatStore.Reduce(w, ends[..2], c) == ChatStore.Step(w, ends[1], c);
  }

  /** A client in mock mode that reads a completed run adds one assistant
      message holding the explanation and puts the payload's code in the
      editor, exactly as a `code_generated` event on its own would. */
  lemma ClientShowsMockRun(v: ChatStore.View, payload: Json, threadId: string, runId: string, messageId: string,
                           c: ChatStore.Captured)
    requires ExplanationOf(payload).Deltas? && ChatStore.FreshId(v.messages, messageId)
    ensures var code := CodeValue(payload);
      ChatStore.Reduce(v, ChatStore.Receive(Trace(payload, threadId, runId, messageId)), c)
      == ChatStore.Step(
           v.(messages := v.messages + [ChatTypes.ChatMessage(messageId, ChatTypes.Assistant, ExplanationOf(payload).text, c.mode)]),
           ChatStore.CodeGenerated(ChatStore.NonEmpty(code.html), ChatStore.NonEmpty(code.css), ChatStore.NonEmpty(code.js)),
           c)
  {
    var text := ExplanationOf(payload).text;
    var content := ContentEvents(messageId, Chunks(text, ChunkSize));
    var message := [TextMessageStart(messageId)] + content;
    var closing := Closing(payload, threadId, runId, messageId);
    TraceAsMessage(payload, threadId, runId, messageId);
    ReadInParts(v, RunStarted(threadId, runId), message, closing, c);
    ChatStore.ChunkedExplanationArrives(v, messageId, text, ChunkSize, c);
    ClosingReceived(ChatStore.Reduce(v, ChatStore.Receive(message), c), payload, threadId, runId, messageId, c);
  }

  /** A completed run is the run start, the message and the closing events. */
  lemma TraceAsMessage(payload: Json, threadId: string, runId: string, messageId: string)
    requires ExplanationOf(payload).Deltas?
    ensures Trace(payload, threadId, runId, messageId)
      == [RunStarted(threadId, runId)]
         + ([TextMessageStart(messageId)] + ContentEvents(messageId, Chunks(ExplanationOf(payload).text, ChunkSize)))
         + Closing(payload, threadId, runId, messageId)
  {
    var content := ContentEvents(messageId, Chunks(ExplanationOf(payload).text, ChunkSize));
    TraceParts(payload, threadId, runId, messageId);
    assert [RunStarted(threadId, runId), TextMessageStart(messageId)] == [RunStarted(threadId, runId)] + [TextMessageStart(messageId)];
    AppendAssoc([RunStarted(threadId, runId)], [TextMessageStart(messageId)], content);
  }

  /** A run-start event leaves the client's view as it is, so a run is read
      as its message followed by its closing events. */
  lemma ReadInParts(v: ChatStore.View, started: Event, message: seq<Event>, closing: seq<Event>, c: ChatStore.Captured)
    requires started.RunStarted?
    ensures ChatStore.Reduce(v, ChatStore.Receive([started] + message + closing), c)
      == ChatStore.Reduce(ChatStore.Reduce(v, ChatStore.Receive(message), c), ChatStore.Receive(closing), c)
  {
    ChatStore.ReceiveAppend([started] + message, closing);
    ChatStore.ReceiveAppend([started], message);
    ChatStore.ReceiveOne(started);
    var first := ChatStore.Receive([started]);
    ChatStore.ReduceAppend(v, first + ChatStore.Receive(message), ChatStore.Receive(closing), c);
    ChatStore.ReduceAppend(v, first, ChatStore.Receive(message), c);
    assert ChatStore.Reduce(v, first, c) == v by {
      assert first[..0] == [];
    }
  }

  /** The body of `GET /api/chat/cached-responses`: the count and the listed
      prompts. */
  datatype CachedList = CachedList(count: nat, prompts: seq<string>)

  function ListCached(dir: seq<ResponseCache.CacheFile>): (r: CachedList)
    ensures r.count == |r.prompts| == |ResponseCache.AllResponses(dir)|
    ensures forall i :: 0 <= i < r.count ==> r.prompts[i] == ResponseCache.AllResponses(dir)[i].prompt
  {
    var listed := ResponseCache.AllResponses(dir);
    CachedList(|listed|, seq(|listed|, i requires 0 <= i < |listed| => listed[i].prompt))
  }

  /** The reply of `DELETE /api/chat/cache`. */
  const CacheCleared: string := "Cache cleared successfully"

  /** `DELETE /api/chat/cache`: the directory after clearing and the reply. */
  function DeleteCache(dir: seq<ResponseCache.CacheFile>): (r: (seq<ResponseCache.CacheFile>, string))
    ensures r.1 == CacheCleared
    ensures ListCached(r.0).count == 0
  {
    (ResponseCache.ClearCache(dir), CacheCleared)
  }

  /** After the cache is cleared, every message is answered from the
      built-in payloads. */
  lemma ClearedCacheFallsBack(dir: seq<ResponseCache.CacheFile>, message: string)
    ensures var cleared := DeleteCache(dir).0;
      SelectPayload(cleared, message) == (if AsksForLanding(message) then LandingMock else ButtonMock)
  {
  }
}
