/** The AG-UI events the backend writes to its server-sent-event stream and the
    frontend reads back, and the fixed-size chunking both streaming paths use to
    cut a text into `TextMessageContent` deltas.  Timestamps are not modelled. */
module AgUi {
  import opened Strings

  /** The value of the `code_generated` custom event. */
  datatype GeneratedCode = GeneratedCode(
    html: string,
    css: string,
    js: string,
    explanation: string,
    suggestions: seq<string>)

  datatype Event =
    | RunStarted(threadId: string, runId: string)
    | RunFinished(threadId: string, runId: string)
    | RunError(message: string)
    | TextMessageStart(messageId: string)
    | TextMessageContent(messageId: string, delta: string)
    | TextMessageEnd(messageId: string)
    | CodeGenerated(code: GeneratedCode)
    /** The plain `error` event the mock route writes when it fails. */
    | ErrorEvent(message: string)

  /** The concatenation of the pieces of a text. */
  function Concat(pieces: seq<string>): (r: string)
    ensures pieces == [] ==> r == ""
  {
    if pieces == [] then "" else pieces[0] + Concat(pieces[1..])
  }

  lemma {:induction false} ConcatAppend(a: seq<string>, b: seq<string>)
    ensures Concat(a + b) == Concat(a) + Concat(b)
  {
    if a != [] {
      assert (a + b)[1..] == a[1..] + b;
      ConcatAppend(a[1..], b);
    } else {
      assert a + b == b;
    }
  }

  /** The slices `s.substring(i, min(i + size, s.length))` for
      `i = 0, size, 2*size, ...` while `i < s.length`. */
  function Chunks(s: string, size: nat): (r: seq<string>)
    requires size > 0
    decreases |s|
  {
    if |s| <= size then (if s == [] then [] else [s])
    else [s[..size]] + Chunks(s[size..], size)
  }

  /** The chunks glue back to the text. */
  lemma {:induction false} ChunksConcat(s: string, size: nat)
    requires size > 0
    ensures Concat(Chunks(s, size)) == s
    decreases |s|
  {
    if |s| > size {
      ChunksConcat(s[size..], size);
      var rest := Chunks(s[size..], size);
      assert Chunks(s, size) == [s[..size]] + rest;
      assert ([s[..size]] + rest)[1..] == rest;
      assert s == s[..size] + s[size..];
    } else if s != [] {
      assert Concat([s]) == s + Concat([]);
    }
  }

  /** Each chunk is non-empty and at most `size` long, and only the last one may
      be shorter. */
  lemma {:induction false} ChunksSizes(s: string, size: nat)
    requires size > 0
    ensures forall i :: 0 <= i < |Chunks(s, size)| ==> 0 < |Chunks(s, size)[i]| <= size
    ensures forall i :: 0 <= i < |Chunks(s, size)| - 1 ==> |Chunks(s, size)[i]| == size
    decreases |s|
  {
    if |s| > size {
      ChunksSizes(s[size..], size);
      var rest := Chunks(s[size..], size);
      assert Chunks(s, size) == [s[..size]] + rest;
    }
  }

  /** There are `ceil(|s| / size)` chunks. */
  lemma {:induction false} ChunksCount(s: string, size: nat)
    requires size > 0
    ensures |Chunks(s, size)| * size >= |s| > (|Chunks(s, size)| - 1) * size
      || (s == [] && Chunks(s, size) == [])
    decreases |s|
  {
    if |s| > size {
      ChunksCount(s[size..], size);
    }
  }

  /** The `TextMessageContent` events that carry `pieces` for message `id`. */
  function ContentEvents(id: string, pieces: seq<string>): (r: seq<Event>)
    ensures |r| == |pieces|
    ensures forall i :: 0 <= i < |r| ==> r[i] == TextMessageContent(id, pieces[i])
  {
    seq(|pieces|, i requires 0 <= i < |pieces| => TextMessageContent(id, pieces[i]))
  }

  /** The delta an event adds to message `id`: its own deltas only. */
  function OwnDelta(e: Event, id: string): string {
    if e.TextMessageContent? && e.messageId == id then e.delta else ""
  }

  /** The text a client assembles for message `id`: the concatenation of the
      deltas addressed to it. */
  function MessageText(events: seq<Event>, id: string): (r: string)
  {
    if events == [] then "" else OwnDelta(events[0], id) + MessageText(events[1..], id)
  }

  lemma MessageTextCons(e: Event, rest: seq<Event>, id: string)
    ensures MessageText([e] + rest, id) == OwnDelta(e, id) + MessageText(rest, id)
  {
    assert ([e] + rest)[0] == e;
    assert ([e] + rest)[1..] == rest;
  }

  lemma {:induction false} MessageTextAppend(a: seq<Event>, b: seq<Event>, id: string)
    ensures MessageText(a + b, id) == MessageText(a, id) + MessageText(b, id)
  {
    if a != [] {
      var t := a[1..];
      assert a == [a[0]] + t;
      assert a + b == [a[0]] + (t + b);
      MessageTextCons(a[0], t + b, id);
      MessageTextCons(a[0], t, id);
      MessageTextAppend(t, b, id);
      AppendAssoc(OwnDelta(a[0], id), MessageText(t, id), MessageText(b, id));
    } else {
      assert a + b == b;
    }
  }

  /** The deltas of a message's content events reassemble its pieces. */
  lemma {:induction false} MessageTextOfContent(id: string, pieces: seq<string>)
    ensures MessageText(ContentEvents(id, pieces), id) == Concat(pieces)
  {
    if pieces != [] {
      assert ContentEvents(id, pieces)[1..] == ContentEvents(id, pieces[1..]);
      MessageTextOfContent(id, pieces[1..]);
    }
  }

  /** Streaming a text as chunked deltas delivers exactly that text. */
  lemma ChunkedDeltasDeliverText(id: string, s: string, size: nat)
    requires size > 0
    ensures MessageText(ContentEvents(id, Chunks(s, size)), id) == s
  {
    MessageTextOfContent(id, Chunks(s, size));
    ChunksConcat(s, size);
  }

  lemma ContentEventsAppend(id: string, a: seq<string>, b: seq<string>)
    ensures ContentEvents(id, a + b) == ContentEvents(id, a) + ContentEvents(id, b)
  {
  }

  /** The server-sent-event response the services write to: the events written
      so far and whether the response has been ended. */
  class EventSink {
    var events: seq<Event>
    var ended: bool

    constructor()
      ensures events == [] && !ended
    {
      events := [];
      ended := false;
    }

    /** `sendEvent`: one event is appended to the stream. */
    method Send(e: Event)
      requires !ended
      modifies this
      ensures events == old(events) + [e] && !ended
    {
      events := events + [e];
    }

    /** `res.end()` */
    method End()
      modifies this
      ensures events == old(events) && ended
    {
      ended := true;
    }
  }

  /** What is left of `s` from index `i`: empty once the loop index has
      passed the end. */
  function From(s: string, i: nat): (r: string)
    ensures i < |s| ==> r == s[i..]
    ensures i >= |s| ==> r == []
  {
    if i < |s| then s[i..] else []
  }

  /** The chunk loop both streaming paths run: `text.substring(i, min(i +
      size, text.length))` sent as a delta for `i = 0, size, 2*size, ...`. */
  method SendChunked(sink: EventSink, id: string, text: string, size: nat)
    requires size > 0 && !sink.ended
    modifies sink
    ensures sink.events == old(sink.events) + ContentEvents(id, Chunks(text, size))
    ensures !sink.ended
  {
    var i := 0;
    while i < |text|
      invariant !sink.ended
      invariant old(sink.events) + ContentEvents(id, Chunks(text, size))
        == sink.events + ContentEvents(id, Chunks(From(text, i), size))
    {
      var chunk := text[i..Min(i + size, |text|)];
      ChunkStep(id, text, i, size);
      ghost var rest := ContentEvents(id, Chunks(From(text, i + size), size));
      assert sink.events + ([TextMessageContent(id, chunk)] + rest) == sink.events + [TextMessageContent(id, chunk)] + rest;
      sink.Send(TextMessageContent(id, chunk));
      i := i + size;
    }
    assert From(text, i) == [];
  }

  /** One turn of the chunk loop: the events still to send are the next
      chunk's, then those of the rest. */
  lemma ChunkStep(id: string, text: string, i: nat, size: nat)
    requires size > 0 && i < |text|
    ensures ContentEvents(id, Chunks(From(text, i), size))
      == [TextMessageContent(id, text[i..Min(i + size, |text|)])] + ContentEvents(id, Chunks(From(text, i + size), size))
  {
    var chunk := text[i..Min(i + size, |text|)];
    var rest := text[i..];
    assert Chunks(rest, size) == [chunk] + Chunks(From(text, i + size), size) by {
      if |rest| > size {
        assert chunk == rest[..size];
        assert rest[size..] == From(text, i + size);
      } else {
        assert chunk == rest;
        assert From(text, i + size) == [];
        assert [chunk] + [] == [chunk];
      }
    }
    ContentEventsAppend(id, [chunk], Chunks(From(text, i + size), size));
  }
}
