/** The object scan of the streaming service's `parseAgentResponse`
    (backend/src/services/chat-stream.service.ts): after fence stripping, the
    text handed to `JSON.parse` is the prefix that ends where the brace depth
    first returns to zero. */
module BraceScan {
  import opened Wrappers
  import opened Strings
  import opened JsValues
  import JsonParser

  /** The scanner's variables `inString`, `escape` and `depth`. */
  datatype BraceState = BraceState(inString: bool, escaped: bool, depth: int)

  const Start := BraceState(false, false, 0)

  /** Whether character `c` read in state `st` is a brace that counts: not
      escaped, not a backslash or quote, and outside a string. */
  predicate Counted(st: BraceState, c: char) {
    !st.escaped && c != '\\' && c != '"' && !st.inString
  }

  /** One iteration of the scanning loop.  A backslash escapes the next
      character whether or not it is inside a string. */
  function Step(st: BraceState, c: char): (r: BraceState)
    ensures r.depth != st.depth ==> Counted(st, c) && (c == '{' || c == '}')
  {
    if st.escaped then st.(escaped := false)
    else if c == '\\' then st.(escaped := true)
    else if c == '"' then st.(inString := !st.inString)
    else if !st.inString && c == '{' then st.(depth := st.depth + 1)
    else if !st.inString && c == '}' then st.(depth := st.depth - 1)
    else st
  }

  /** The string and escape tracking is the same as that of the completion
      scan in backend/src/utils/json-parser.ts. */
  lemma StepTracksQuotesLikeCompletion(st: BraceState, c: char)
    ensures var q := JsonParser.QuoteStep(JsonParser.ScanState(st.inString, st.escaped), c);
      Step(st, c).inString == q.inString && Step(st, c).escaped == q.escaped
  {
  }

  /** The state after scanning all of `s` without stopping. */
  function Scan(s: string): BraceState
    decreases |s|
  {
    if s == [] then Start else Step(Scan(s[..|s| - 1]), s[|s| - 1])
  }

  lemma ScanPrefix(s: string, i: nat)
    requires i < |s|
    ensures Scan(s[..i + 1]) == Step(Scan(s[..i]), s[i])
  {
    assert s[..i + 1][..i] == s[..i];
  }

  /** The character at `j` is a `}` that brings the depth back to zero. */
  predicate ClosesAt(s: string, j: nat)
    requires j < |s|
  {
    var st := Scan(s[..j]);
    Counted(st, s[j]) && s[j] == '}' && st.depth == 1
  }

  /** The loop from index `i` in state `st`: `jsonEnd`, or -1 when the loop
      runs off the end. */
  function EndFrom(s: string, i: nat, st: BraceState): (r: int)
    requires i <= |s|
    ensures r == -1 || i < r <= |s|
    decreases |s| - i
  {
    if i == |s| then -1
    else if Counted(st, s[i]) && s[i] == '}' && st.depth == 1 then i + 1
    else EndFrom(s, i + 1, Step(st, s[i]))
  }

  /** `jsonEnd` */
  function ObjectEnd(s: string): (r: int)
    ensures r == -1 || 0 < r <= |s|
  {
    EndFrom(s, 0, Start)
  }

  lemma {:induction false} EndFromCharacterized(s: string, i: nat)
    requires i <= |s|
    ensures var r := EndFrom(s, i, Scan(s[..i]));
      && (r == -1 <==> forall j :: i <= j < |s| ==> !ClosesAt(s, j))
      && (r != -1 ==> ClosesAt(s, r - 1) && forall j :: i <= j < r - 1 ==> !ClosesAt(s, j))
    decreases |s| - i
  {
    if i < |s| {
      var st := Scan(s[..i]);
      if Counted(st, s[i]) && s[i] == '}' && st.depth == 1 {
        assert ClosesAt(s, i);
      } else {
        assert !ClosesAt(s, i);
        ScanPrefix(s, i);
        EndFromCharacterized(s, i + 1);
        var r := EndFrom(s, i + 1, Scan(s[..i + 1]));
        assert EndFrom(s, i, st) == r;
        NoCloseExtends(s, i, if r == -1 then |s| else r - 1);
      }
    }
  }

  /** A range with no closing brace grows by one position that is not one. */
  lemma NoCloseExtends(s: string, i: nat, hi: nat)
    requires i < |s| && hi <= |s| && !ClosesAt(s, i)
    requires forall j :: i + 1 <= j < hi ==> !ClosesAt(s, j)
    ensures forall j :: i <= j < hi ==> !ClosesAt(s, j)
  {
    forall j | i <= j < hi
      ensures !ClosesAt(s, j)
    {
      if j != i {
        assert i + 1 <= j;
      }
    }
  }

  /** `jsonEnd` is one past the first `}` that closes the outermost object, or
      -1 when there is none. */
  lemma ObjectEndCharacterized(s: string)
    ensures ObjectEnd(s) == -1 <==> forall j :: 0 <= j < |s| ==> !ClosesAt(s, j)
    ensures ObjectEnd(s) != -1 ==>
      ClosesAt(s, ObjectEnd(s) - 1) && forall j :: 0 <= j < ObjectEnd(s) - 1 ==> !ClosesAt(s, j)
  {
    assert s[..0] == [];
    EndFromCharacterized(s, 0);
  }

  /** The scanning loop with its early `break`. */
  method ScanObjectEnd(s: string) returns (jsonEnd: int)
    ensures jsonEnd == ObjectEnd(s)
  {
    var depth := 0;
    var inString := false;
    var escape := false;
    jsonEnd := -1;
    var i := 0;
    while i < |s|
      invariant 0 <= i <= |s|
      invariant EndFrom(s, i, BraceState(inString, escape, depth)) == ObjectEnd(s)
      invariant jsonEnd == -1
    {
      var c := s[i];
      if escape {
        escape := false;
      } else if c == '\\' {
        escape := true;
      } else if c == '"' {
        inString := !inString;
      } else if !inString {
        if c == '{' {
          depth := depth + 1;
        } else if c == '}' {
          depth := depth - 1;
          if depth == 0 {
            jsonEnd := i + 1;
            break;
          }
        }
      }
      i := i + 1;
    }
  }

  /** `jsonStr`: the prefix up to `jsonEnd`, or the whole text. */
  function JsonText(clean: string): (r: string)
    ensures ObjectEnd(clean) == -1 ==> r == clean
    ensures ObjectEnd(clean) != -1 ==> r == clean[..ObjectEnd(clean)]
  {
    var e := ObjectEnd(clean);
    if e > 0 then clean[..e] else clean
  }

  /** Text after the first balanced object does not change where it ends, so
      it is dropped. */
  lemma TrailingTextDropped(s: string, t: string)
    requires ObjectEnd(s) != -1
    ensures ObjectEnd(s + t) == ObjectEnd(s)
    ensures JsonText(s + t) == JsonText(s)
  {
    var e := ObjectEnd(s);
    ObjectEndCharacterized(s);
    ObjectEndCharacterized(s + t);
    forall j | 0 <= j < |s|
      ensures ClosesAt(s + t, j) == ClosesAt(s, j)
    {
      assert (s + t)[..j] == s[..j];
    }
    assert ClosesAt(s + t, e - 1);
    var e2 := ObjectEnd(s + t);
    assert e2 != -1 && e2 <= e;
    assert ClosesAt(s, e2 - 1);
    assert (s + t)[..e] == s[..e];
  }

  /** The selected prefix ends with its closing brace at depth zero. */
  lemma JsonTextBalanced(s: string)
    requires ObjectEnd(s) != -1
    ensures var r := JsonText(s); r[|r| - 1] == '}' && Scan(r).depth == 0
  {
    ObjectEndCharacterized(s);
    var e := ObjectEnd(s);
    ScanPrefix(s, e - 1);
    assert s[..e] == JsonText(s);
  }

  const NotAnObjectMessage := "Not valid JSON - content does not start with {"

  /** `parseAgentResponse` with `JSON.parse` as the decoder; a failure carries
      the thrown message.  Cleaned text that starts with `{` is decoded up to
      and including the first `}` that brings the depth back to zero, so the
      shortest balanced prefix is decoded and whatever follows it is not; with
      no such `}` the whole cleaned text is decoded. */
  function ParseAgentResponse(content: string, decode: Decoder): (r: Result<Json, string>)
    ensures var clean := JsonParser.CleanContent(content);
      && (!StartsWith(clean, "{") ==> r == Failure(NotAnObjectMessage))
      && (StartsWith(clean, "{") && (forall j :: 0 <= j < |clean| ==> !ClosesAt(clean, j)) ==>
            r == decode(clean))
      && (StartsWith(clean, "{") ==>
            forall k :: 0 <= k < |clean| && ClosesAt(clean, k) && (forall j :: 0 <= j < k ==> !ClosesAt(clean, j)) ==>
              r == decode(clean[..k + 1]))
  {
    var clean := JsonParser.CleanContent(content);
    ObjectEndCharacterized(clean);
    if StartsWith(clean, "{") then decode(JsonText(clean))
    else Failure(NotAnObjectMessage)
  }

  /** The decoder is never consulted for text that does not start with `{`. */
  lemma NoDecodeUnlessObject(content: string, d1: Decoder, d2: Decoder)
    requires !StartsWith(JsonParser.CleanContent(content), "{")
    ensures ParseAgentResponse(content, d1) == ParseAgentResponse(content, d2)
    ensures ParseAgentResponse(content, d1).Failure?
  {
  }
}
