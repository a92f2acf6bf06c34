/** The chat store (frontend/src/store/useChatStore.ts): the conversation, the
    chat mode, the loading and error flags, and `sendMessage`, which posts the
    message and reduces the AG-UI events read back into the conversation, the
    editor code and the undo history.

    The transport is a parameter: the `data:` lines the reader delivers, in
    order, and what the request threw, if anything.  `JSON.parse` of a payload,
    together with the reading of its `type`, `messageId`, `delta` and `value`
    fields, is the oracle `PayloadDecoder`.  The message id, the command id and
    the clock are parameters. */
module ChatStore {
  import opened Wrappers
  import opened Strings
  import opened ChatTypes
  import opened Editor
  import opened Commands
  import opened History
  import AgUi
  import ChatStream

  const MockEndpoint := "http://localhost:3001/api/chat/mock"
  const StreamEndpoint := "http://localhost:3001/api/chat/stream"

  /** The number of earlier messages sent along with a request. */
  const HistoryLength := 10

  /** An event as the store reads it. */
  datatype Incoming =
    | Start(messageId: string)
    | Content(messageId: string, delta: string)
    /** The `code_generated` custom event; a field that is absent or empty is
        `None`. */
    | CodeGenerated(html: Option<string>, css: Option<string>, js: Option<string>)
    /** Any other event: it changes nothing. */
    | Ignored

  /** `JSON.parse` of a payload and the reading of the event's fields; `None`
      when parsing throws. */
  type PayloadDecoder = string -> Option<Incoming>

  /** What the client makes of an event the server sent, once it has come
      through `JSON.stringify` and `JSON.parse`. */
  function Received(e: AgUi.Event): (r: Incoming)
    ensures e.TextMessageStart? ==> r == Start(e.messageId)
    ensures e.TextMessageContent? ==> r == Content(e.messageId, e.delta)
    ensures !(e.TextMessageStart? || e.TextMessageContent? || e.CodeGenerated?) ==> r == Ignored
  {
    match e
    case TextMessageStart(id) => Start(id)
    case TextMessageContent(id, delta) => Content(id, delta)
    case CodeGenerated(code) => CodeGenerated(NonEmpty(code.html), NonEmpty(code.css), NonEmpty(code.js))
    case _ => Ignored
  }

  function NonEmpty(s: string): Option<string> {
    if s == "" then None else Some(s)
  }

  /** `x || ''` on an optional text. */
  function OrEmpty(s: Option<string>): string {
    if s.Some? then s.value else ""
  }

  // ---------------------------------------------------------------------------
  // Reading lines

  /** The event a line yields: only a `data:` line whose trimmed remainder is
      non-empty and decodes. */
  function LineEvent(line: string, decode: PayloadDecoder): Option<Incoming> {
    if StartsWith(line, "data:") && Trim(line[5..]) != "" then decode(Trim(line[5..])) else None
  }

  /** The events a sequence of lines yields, in order. */
  function Decoded(lines: seq<string>, decode: PayloadDecoder): (r: seq<Incoming>)
    ensures |r| <= |lines|
  {
    if lines == [] then []
    else
      var last := LineEvent(lines[|lines| - 1], decode);
      Decoded(lines[..|lines| - 1], decode) + (if last.Some? then [last.value] else [])
  }

  /** A line the server writes, `data: ` and a payload without surrounding
      white space, is read back as exactly that payload; the blank line that
      ends each server-sent event yields nothing. */
  lemma ServerLineRead(payload: string, decode: PayloadDecoder)
    requires payload != [] && !IsSpace(payload[0]) && !IsSpace(payload[|payload| - 1])
    ensures LineEvent("data: " + payload, decode) == decode(payload)
    ensures LineEvent("", decode).None?
  {
    var line := "data: " + payload;
    assert line[5..] == [' '] + payload;
    assert TrimStart([' '] + payload) == TrimStart(payload) by {
      assert ([' '] + payload)[1..] == payload;
    }
    assert TrimStart(payload) == payload;
    assert TrimEnd(payload) == payload;
  }

  // ---------------------------------------------------------------------------
  // Reducing events

  /** What `sendMessage` works on: the conversation, the editor state and the
      undo history. */
  datatype View = View(messages: seq<ChatMessage>, editor: Snapshot, stacks: Stacks)

  /** What `sendMessage` captured when it was called: the mode, the user's
      text (the prompt of a recorded generation) and the id and time a
      recorded command gets. */
  datatype Captured = Captured(mode: ChatMode, prompt: string, commandId: string, now: int)

  /** The messages with `delta` appended to those whose id is `id`. */
  function WithDelta(messages: seq<ChatMessage>, id: string, delta: string): (r: seq<ChatMessage>)
    ensures |r| == |messages|
  {
    seq(|messages|, i requires 0 <= i < |messages| =>
      if messages[i].id == id then messages[i].(content := messages[i].content + delta) else messages[i])
  }

  /** The editor state after `setCode` with the event's code, missing parts
      empty. */
  function WithCode(s: Snapshot, html: Option<string>, css: Option<string>, js: Option<string>): Snapshot {
    s.(html := OrEmpty(html), css := OrEmpty(css), js := OrEmpty(js))
  }

  /** The effect of one event. */
  function Step(v: View, ev: Incoming, c: Captured): View {
    match ev
    case Start(id) => v.(messages := v.messages + [ChatMessage(id, Assistant, "", c.mode)])
    case Content(id, delta) => v.(messages := WithDelta(v.messages, id, delta))
    case CodeGenerated(html, css, js) =>
      var after := WithCode(v.editor, html, css, js);
      var stacks := if c.mode == Agent then AfterAdd(v.stacks, AgentGenerationCommand(c.commandId, c.now, v.editor, after, c.prompt))
        else v.stacks;
      View(v.messages, after, stacks)
    case Ignored => v
  }

  /** The effect of a sequence of events, first to last. */
  function Reduce(v: View, events: seq<Incoming>, c: Captured): View {
    if events == [] then v else Step(Reduce(v, events[..|events| - 1], c), events[|events| - 1], c)
  }

  lemma ReduceSnoc(v: View, events: seq<Incoming>, ev: Incoming, c: Captured)
    ensures Reduce(v, events + [ev], c) == Step(Reduce(v, events, c), ev, c)
  {
    assert (events + [ev])[..|events|] == events;
  }

  /** No message carries `id`. */
  predicate FreshId(messages: seq<ChatMessage>, id: string) {
    forall i :: 0 <= i < |messages| ==> messages[i].id != id
  }

  /** A `TextMessageStart` for a new id followed by its content events adds one
      assistant message whose text is everything the stream delivered for that
      id, and leaves the earlier messages as they were. */
  lemma {:induction false} StreamedMessage(v: View, id: string, events: seq<AgUi.Event>, c: Captured)
    requires FreshId(v.messages, id)
    requires forall k :: 0 <= k < |events| ==> events[k].TextMessageContent? && events[k].messageId == id
    ensures Reduce(v, Receive([AgUi.TextMessageStart(id)] + events), c)
      == v.(messages := v.messages + [ChatMessage(id, Assistant, AgUi.MessageText(events, id), c.mode)])
    decreases |events|
  {
    var all := [AgUi.TextMessageStart(id)] + events;
    if events == [] {
      assert Receive(all) == [Start(id)] by {
        assert Receive(all) == Receive([]) + [Received(all[0])];
      }
      assert Reduce(v, [Start(id)], c) == Step(Reduce(v, [], c), Start(id), c);
    } else {
      var init := events[..|events| - 1];
      var last := events[|events| - 1];
      assert events == init + [last];
      StreamedMessage(v, id, init, c);
      StreamedDelta(v, id, init, last, c);
      AppendAssoc([AgUi.TextMessageStart(id)], init, [last]);
    }
  }

  /** One more delta for the streamed message extends its text by that delta. */
  lemma StreamedDelta(v: View, id: string, init: seq<AgUi.Event>, last: AgUi.Event, c: Captured)
    requires FreshId(v.messages, id)
    requires last.TextMessageContent? && last.messageId == id
    requires Reduce(v, Receive([AgUi.TextMessageStart(id)] + init), c)
      == v.(messages := v.messages + [ChatMessage(id, Assistant, AgUi.MessageText(init, id), c.mode)])
    ensures Reduce(v, Receive([AgUi.TextMessageStart(id)] + init + [last]), c)
      == v.(messages := v.messages + [ChatMessage(id, Assistant, AgUi.MessageText(init + [last], id), c.mode)])
  {
    var before := [AgUi.TextMessageStart(id)] + init;
    var m := ChatMessage(id, Assistant, AgUi.MessageText(init, id), c.mode);
    assert Receive(before + [last]) == Receive(before) + [Content(last.messageId, last.delta)] by {
      assert (before + [last])[..|before|] == before;
    }
    ReduceSnoc(v, Receive(before), Content(last.messageId, last.delta), c);
    WithDeltaFresh(v.messages, m, last.delta);
    AgUi.MessageTextAppend(init, [last], id);
    assert AgUi.MessageText([last], id) == last.delta by {
      AgUi.MessageTextCons(last, [], id);
      assert [last] + [] == [last];
    }
    assert Reduce(v, Receive(before + [last]), c)
      == v.(messages := WithDelta(v.messages + [m], id, last.delta));
  }

  lemma WithDeltaFresh(messages: seq<ChatMessage>, m: ChatMessage, delta: string)
    requires FreshId(messages, m.id)
    ensures WithDelta(messages + [m], m.id, delta) == messages + [m.(content := m.content + delta)]
  {
    var r := WithDelta(messages + [m], m.id, delta);
    assert forall i :: 0 <= i < |messages| ==> r[i] == messages[i];
  }

  /** The events the store reads when every event the server sent arrives. */
  function Receive(events: seq<AgUi.Event>): (r: seq<Incoming>)
    ensures |r| == |events|
  {
    if events == [] then [] else Receive(events[..|events| - 1]) + [Received(events[|events| - 1])]
  }

  lemma ReceiveOne(e: AgUi.Event)
    ensures Receive([e]) == [Received(e)]
  {
    assert Receive([e]) == Receive([]) + [Received(e)];
  }

  /** Events received in two runs are the two runs received. */
  lemma {:induction false} ReceiveAppend(a: seq<AgUi.Event>, b: seq<AgUi.Event>)
    ensures Receive(a + b) == Receive(a) + Receive(b)
    decreases |b|
  {
    if b == [] {
      assert a + b == a;
    } else {
      var init := b[..|b| - 1];
      ReceiveAppend(a, init);
      assert (a + b)[..|a + b| - 1] == a + init;
    }
  }

  /** Reading two runs of events one after the other is reading them
      together. */
  lemma {:induction false} ReduceAppend(v: View, a: seq<Incoming>, b: seq<Incoming>, c: Captured)
    ensures Reduce(v, a + b, c) == Reduce(Reduce(v, a, c), b, c)
    decreases |b|
  {
    if b == [] {
      assert a + b == a;
    } else {
      var init := b[..|b| - 1];
      ReduceAppend(v, a, init, c);
      assert (a + b)[..|a + b| - 1] == a + init;
    }
  }

  /** The explanation the streaming paths send as fixed-size deltas arrives
      as one assistant message holding exactly that explanation. */
  lemma ChunkedExplanationArrives(v: View, id: string, text: string, size: nat, c: Captured)
    requires size > 0 && FreshId(v.messages, id)
    ensures Reduce(v, Receive([AgUi.TextMessageStart(id)] + AgUi.ContentEvents(id, AgUi.Chunks(text, size))), c)
      == v.(messages := v.messages + [ChatMessage(id, Assistant, text, c.mode)])
  {
    var events := AgUi.ContentEvents(id, AgUi.Chunks(text, size));
    StreamedMessage(v, id, events, c);
    AgUi.ChunkedDeltasDeliverText(id, text, size);
  }

  /** A `code_generated` event puts its code in the editor, missing parts
      empty, and keeps the conversation.  In agent mode it records one
      generation command whose undo gives back the editor as it was; in chat
      mode the history is untouched. */
  lemma CodeGeneratedRecorded(v: View, html: Option<string>, css: Option<string>, js: Option<string>, c: Captured)
    ensures var r := Step(v, CodeGenerated(html, css, js), c);
      && r.messages == v.messages
      && r.editor.html == OrEmpty(html) && r.editor.css == OrEmpty(css) && r.editor.js == OrEmpty(js)
      && r.editor.selectedElement == v.editor.selectedElement && r.editor.viewport == v.editor.viewport
      && (c.mode == Chat ==> r.stacks == v.stacks)
      && (c.mode == Agent ==>
            && r.stacks.redo == []
            && var cmd := r.stacks.undo[|r.stacks.undo| - 1];
            && TypeOf(cmd) == AgentGeneration
            && cmd.description == AgentDescription(c.prompt)
            && Undone(cmd, r.editor) == v.editor
            && Executed(cmd, v.editor) == r.editor)
  {
  }

  // ---------------------------------------------------------------------------
  // The store

  /** The request body `sendMessage` posts, with the endpoint it goes to. */
  datatype SentRequest = SentRequest(
    endpoint: string,
    message: string,
    mode: ChatMode,
    projectId: Option<string>,
    conversationHistory: seq<ChatMessage>,
    context: Option<RequestContext>)

  /** `messages.slice(-10)` */
  function LastMessages(messages: seq<ChatMessage>): (r: seq<ChatMessage>)
    ensures |r| == Min(|messages|, HistoryLength)
    ensures r == messages[|messages| - |r|..]
  {
    if |messages| <= HistoryLength then messages else messages[|messages| - HistoryLength..]
  }

  /** What the response delivered: the lines read, in order, and what was
      thrown, by `fetch`, for a missing body or by the reader, after them. */
  datatype Transport = Transport(lines: seq<string>, failure: Option<ChatStream.Thrown>)

  /** The error text the store keeps: an `Error`'s message, or 'Failed to
      send message'. */
  function ErrorText(t: ChatStream.Thrown): (r: string)
    ensures t.ErrorValue? ==> r == t.message
    ensures t.OtherValue? ==> r == "Failed to send message"
  {
    match t
    case ErrorValue(message) => message
    case TypeErrorValue => ChatStream.TypeErrorText
    case OtherValue => "Failed to send message"
  }

  class ChatStoreState {
    var messages: seq<ChatMessage>
    var mode: ChatMode
    var isLoading: bool
    var error: Option<string>
    var currentProjectId: Option<string>
    var useMockMode: bool

    /** No messages, agent mode, not loading, no error, no project, the real
        endpoint. */
    constructor()
      ensures messages == [] && mode == Agent && !isLoading && error.None?
      ensures currentProjectId.None? && !useMockMode
    {
      messages := [];
      mode := Agent;
      isLoading := false;
      error := None;
      currentProjectId := None;
      useMockMode := false;
    }

    method SetMode(m: ChatMode)
      modifies this
      ensures mode == m
      ensures messages == old(messages) && isLoading == old(isLoading) && error == old(error)
      ensures currentProjectId == old(currentProjectId) && useMockMode == old(useMockMode)
    {
      mode := m;
    }

    /** `toggleMockMode` flips which endpoint is used. */
    method ToggleMockMode()
      modifies this
      ensures useMockMode == !old(useMockMode)
      ensures messages == old(messages) && mode == old(mode) && isLoading == old(isLoading)
      ensures error == old(error) && currentProjectId == old(currentProjectId)
    {
      useMockMode := !useMockMode;
    }

    /** `clearMessages` empties the conversation and the error. */
    method ClearMessages()
      modifies this
      ensures messages == [] && error.None?
      ensures mode == old(mode) && isLoading == old(isLoading)
      ensures currentProjectId == old(currentProjectId) && useMockMode == old(useMockMode)
    {
      messages := [];
      error := None;
    }

    method SetProjectId(projectId: Option<string>)
      modifies this
      ensures currentProjectId == projectId
      ensures messages == old(messages) && mode == old(mode) && isLoading == old(isLoading)
      ensures error == old(error) && useMockMode == old(useMockMode)
    {
      currentProjectId := projectId;
    }

    method AddMessage(m: ChatMessage)
      modifies this
      ensures messages == old(messages) + [m]
      ensures mode == old(mode) && isLoading == old(isLoading) && error == old(error)
      ensures currentProjectId == old(currentProjectId) && useMockMode == old(useMockMode)
    {
      messages := messages + [m];
    }

    /** The handling of one decoded event inside `sendMessage`. */
    method Apply(event: Incoming, e: EditorStore, h: HistoryStore, c: Captured)
      requires h.Valid() && mode == c.mode
      modifies this, e, h
      ensures h.Valid()
      ensures View(messages, SnapshotOf(e), h.StacksOf()) == Step(old(View(messages, SnapshotOf(e), h.StacksOf())), event, c)
      ensures mode == old(mode) && isLoading == old(isLoading) && error == old(error)
      ensures currentProjectId == old(currentProjectId) && useMockMode == old(useMockMode)
    {
      match event {
        case Start(id) =>
          messages := messages + [ChatMessage(id, Assistant, "", c.mode)];
        case Content(id, delta) =>
          messages := WithDelta(messages, id, delta);
        case CodeGenerated(html, css, js) =>
          var beforeSnapshot := SnapshotOf(e);
          e.SetCode(Code(OrEmpty(html), OrEmpty(css), OrEmpty(js)));
          var afterSnapshot := SnapshotOf(e);
          if c.mode == Agent {
            h.AddCommand(AgentGenerationCommand(c.commandId, c.now, beforeSnapshot, afterSnapshot, c.prompt));
          }
        case Ignored =>
      }
    }

    /** The reader loop of `sendMessage`: each line, in order, through the
        event handling. */
    method ReadLines(lines: seq<string>, decode: PayloadDecoder, e: EditorStore, h: HistoryStore, c: Captured)
      requires h.Valid() && mode == c.mode
      modifies this, e, h
      ensures h.Valid()
      ensures View(messages, SnapshotOf(e), h.StacksOf()) == Reduce(old(View(messages, SnapshotOf(e), h.StacksOf())), Decoded(lines, decode), c)
      ensures mode == old(mode) && isLoading == old(isLoading) && error == old(error)
      ensures currentProjectId == old(currentProjectId) && useMockMode == old(useMockMode)
    {
      ghost var start := View(messages, SnapshotOf(e), h.StacksOf());
      var i := 0;
      while i < |lines|
        invariant 0 <= i <= |lines|
        invariant h.Valid()
        invariant View(messages, SnapshotOf(e), h.StacksOf()) == Reduce(start, Decoded(lines[..i], decode), c)
        invariant mode == old(mode) && isLoading == old(isLoading) && error == old(error)
        invariant currentProjectId == old(currentProjectId) && useMockMode == old(useMockMode)
      {
        var line := lines[i];
        ghost var before := Decoded(lines[..i], decode);
        ghost var found := LineEvent(line, decode);
        assert lines[..i + 1][..i] == lines[..i];
        assert Decoded(lines[..i + 1], decode) == before + (if found.Some? then [found.value] else []);
        if found.None? {
          assert before + [] == before;
        }
        if StartsWith(line, "data:") {
          var data := Trim(line[5..]);
          if data != "" {
            var event := decode(data);
            if event.Some? {
              assert found == event;
              ReduceSnoc(start, before, event.value, c);
              Apply(event.value, e, h, c);
            }
          }
        }
        i := i + 1;
      }
      assert lines[..i] == lines;
    }

    /** `sendMessage`: the user's message is appended and loading starts; the
        request carries the last ten earlier messages; every event read is
        reduced in order; loading ends, with the error kept and `thrown` set
        when the request failed. */
    method SendMessage(content: string, context: Option<RequestContext>, userMessageId: string,
                       transport: Transport, decode: PayloadDecoder,
                       e: EditorStore, h: HistoryStore, commandId: string, now: int)
      returns (request: SentRequest, thrown: Option<ChatStream.Thrown>)
      requires h.Valid()
      modifies this, e, h
      ensures request == SentRequest(
        if old(useMockMode) then MockEndpoint else StreamEndpoint,
        content, old(mode),
        if Present(old(currentProjectId)) then old(currentProjectId) else None,
        LastMessages(old(messages)), context)
      ensures h.Valid()
      ensures View(messages, SnapshotOf(e), h.StacksOf())
        == Reduce(View(old(messages) + [ChatMessage(userMessageId, User, content, old(mode))], old(SnapshotOf(e)), old(h.StacksOf())),
                  Decoded(transport.lines, decode), Captured(old(mode), content, commandId, now))
      ensures !isLoading
      ensures thrown == transport.failure
      ensures error == if thrown.Some? then Some(ErrorText(thrown.value)) else None
      ensures mode == old(mode) && currentProjectId == old(currentProjectId) && useMockMode == old(useMockMode)
    {
      var sendMode := mode;
      var userMessage := ChatMessage(userMessageId, User, content, sendMode);
      var earlier := messages;
      messages := messages + [userMessage];
      isLoading := true;
      error := None;

      var endpoint := if useMockMode then MockEndpoint else StreamEndpoint;
      request := SentRequest(endpoint, content, sendMode,
        if Present(currentProjectId) then currentProjectId else None,
        LastMessages(earlier), context);

      ReadLines(transport.lines, decode, e, h, Captured(sendMode, content, commandId, now));

      isLoading := false;
      thrown := transport.failure;
      if thrown.Some? {
        error := Some(ErrorText(thrown.value));
      }
    }
  }
}
