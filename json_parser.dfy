/** `JSONParser` (backend/src/utils/json-parser.ts): recovery of an LLM reply that
    should be one JSON object but may be wrapped in a Markdown code fence or cut
    off.  Decoding is the `Decoder` parameter; what is modelled exactly is the
    text handed to it and how its outcome is reported. */
module JsonParser {
  import opened Wrappers
  import opened Strings
  import opened JsValues

  // ---------------------------------------------------------------------------
  // Code fences

  /** `s.replace(/^```(?:json)?\n?/, '')` */
  function DropOpeningFence(s: string): (r: string)
    ensures !StartsWith(s, "```") ==> r == s
    ensures StartsWith(s, "```") ==> |s| - 8 <= |r| <= |s| - 3 && r == s[|s| - |r|..]
  {
    if StartsWith(s, "```json\n") then s[8..]
    else if StartsWith(s, "```json") then s[7..]
    else if StartsWith(s, "```\n") then s[4..]
    else if StartsWith(s, "```") then s[3..]
    else s
  }

  /** `s.replace(/\n?```$/, '')` */
  function DropClosingFence(s: string): (r: string)
    ensures !EndsWith(s, "```") ==> r == s
    ensures EndsWith(s, "```") ==> |s| - 4 <= |r| <= |s| - 3 && r == s[..|r|]
  {
    if EndsWith(s, "\n```") then s[..|s| - 4]
    else if EndsWith(s, "```") then s[..|s| - 3]
    else s
  }

  /** `r` occurs in `s` starting at index `a`. */
  predicate InfixAt(s: string, r: string, a: int) {
    0 <= a && a + |r| <= |s| && r == s[a..a + |r|]
  }

  /** The trimmed reply, with one opening and one closing fence removed (and the
      rest trimmed again) when the trimmed reply starts with three backticks.
      The result never starts or ends with white space; a fenced reply gives a
      piece of the trimmed reply that lies after its opening backticks. */
  function CleanContent(content: string): (r: string)
    ensures !StartsWith(Trim(content), "```") ==> r == Trim(content)
    ensures r == [] || (!IsSpace(r[0]) && !IsSpace(r[|r| - 1]))
    ensures StartsWith(Trim(content), "```") ==>
      |r| <= |Trim(content)| - 3 && exists a :: 3 <= a && InfixAt(Trim(content), r, a)
  {
    var trimmed := Trim(content);
    if StartsWith(trimmed, "```") then
      var unfenced := DropOpeningFence(trimmed);
      var closed := DropClosingFence(unfenced);
      TrimInfix(closed);
      PieceInside(trimmed, unfenced, closed, Trim(closed), |closed| - |TrimStart(closed)|);
      Trim(closed)
    else trimmed
  }

  /** A piece `r` of a prefix `c` of a suffix `u` of `t` is a piece of `t`
      that starts no earlier than `u`. */
  lemma PieceInside(t: string, u: string, c: string, r: string, k: int)
    requires |u| <= |t| && u == t[|t| - |u|..]
    requires |c| <= |u| && c == u[..|c|]
    requires InfixAt(c, r, k)
    ensures |r| <= |u| && InfixAt(t, r, |t| - |u| + k)
  {
    assert InfixAt(u, c, 0) by { assert u[0..|c|] == c; }
    InfixAtTrans(u, c, r, 0, k);
    assert InfixAt(t, u, |t| - |u|) by { assert t[|t| - |u|..|t|] == u; }
    InfixAtTrans(t, u, r, |t| - |u|, k);
  }

  lemma TrimInfix(c: string)
    ensures InfixAt(c, Trim(c), |c| - |TrimStart(c)|)
  {
    assert TrimmedAt(c, Trim(c), |c| - |TrimStart(c)|);
  }

  lemma InfixAtTrans(t: string, u: string, r: string, a: int, b: int)
    requires InfixAt(t, u, a) && InfixAt(u, r, b)
    ensures InfixAt(t, r, a + b)
  {
    forall i | 0 <= i < |r|
      ensures r[i] == t[a + b + i]
    {
      assert r[i] == u[b + i];
    }
  }

  /** A body fenced as ```` ```json ```` … ```` ``` ```` comes back unchanged. */
  lemma FencedBodyRecovered(body: string)
    requires body == [] || (!IsSpace(body[0]) && !IsSpace(body[|body| - 1]))
    ensures CleanContent("```json\n" + body + "\n```") == body
  {
    var s := "```json\n" + body + "\n```";
    assert s == "```json\n" + (body + "\n```");
    assert s[0] == '`' && s[|s| - 1] == '`';
    TrimOfTrimmed(s);
    OpeningFenceDropped(body + "\n```");
    ClosingFenceDropped(body);
    TrimOfTrimmed(body);
  }

  lemma OpeningFenceDropped(t: string)
    ensures DropOpeningFence("```json\n" + t) == t
  {
    var s := "```json\n" + t;
    assert s[..8] == "```json\n";
    assert s[8..] == t;
  }

  lemma ClosingFenceDropped(b: string)
    ensures DropClosingFence(b + "\n```") == b
  {
    var s := b + "\n```";
    assert s[|s| - 4..] == "\n```";
    assert s[..|s| - 4] == b;
  }

  // ---------------------------------------------------------------------------
  // Escape-aware string scan and completion

  /** The scanner's flags: inside a string literal, and the previous character
      was an unconsumed backslash. */
  datatype ScanState = ScanState(inString: bool, escaped: bool)

  /** One step of the scan: an escaped character is skipped, a backslash
      escapes the next character, and an unescaped quote toggles `inString`. */
  function QuoteStep(st: ScanState, c: char): ScanState {
    if st.escaped then ScanState(st.inString, false)
    else if c == '\\' then ScanState(st.inString, true)
    else if c == '"' then ScanState(!st.inString, false)
    else st
  }

  /** The scan state after reading all of `s`. */
  function QuoteScan(s: string): ScanState
    decreases |s|
  {
    if s == [] then ScanState(false, false)
    else QuoteStep(QuoteScan(s[..|s| - 1]), s[|s| - 1])
  }

  lemma QuoteScanSnoc(s: string, c: char)
    ensures QuoteScan(s + [c]) == QuoteStep(QuoteScan(s), c)
  {
    assert (s + [c])[..|s|] == s;
  }

  /** The result of `completeJSON`. */
  datatype Completed = Completed(json: string, wasModified: bool)

  /** The input with a closing quote appended when it ends inside a string. */
  function ClosedQuote(json: string): (r: string)
    ensures r == json || r == json + "\""
  {
    if QuoteScan(json).inString then json + "\"" else json
  }

  /** `completeJSON`: a closing quote when the scan ends inside a string, then as
      many closing braces as `{` outnumbers `}` (counting braces everywhere,
      string literals included). */
  function Completion(json: string): Completed {
    var st := QuoteScan(json);
    var quoted := ClosedQuote(json);
    var open := Count(json, '{');
    var close := Count(json, '}');
    if open > close then Completed(quoted + Repeat('}', open - close), true)
    else Completed(quoted, st.inString)
  }

  /** The completed text extends the input by at most one quote followed by only
      closing braces, exactly `count('{') - count('}')` of them when positive;
      it was modified iff something was appended. */
  lemma CompletionShape(json: string)
    ensures StartsWith(Completion(json).json, json)
    ensures var c := Completion(json);
      var q := if QuoteScan(json).inString then 1 else 0;
      var suffix := c.json[|json|..];
      && (|suffix| > 0 && suffix[0] == '"' <==> QuoteScan(json).inString)
      && (forall i :: q <= i < |suffix| ==> suffix[i] == '}')
      && |suffix| == q + Max(Count(json, '{') - Count(json, '}'), 0)
      && (c.wasModified <==> |suffix| > 0)
  {
    var n := Count(json, '{') - Count(json, '}');
    var quote := if QuoteScan(json).inString then "\"" else "";
    var braces := if n > 0 then Repeat('}', n) else "";
    CompletionText(json);
    assert ClosedQuote(json) == json + quote;
    assert Completion(json).json == json + (quote + braces) by {
      assert braces == "" ==> json + quote == json + quote + braces;
      AppendAssoc(json, quote, braces);
    }
    PrefixAndRest(json, quote + braces);
    CompletionTail(QuoteScan(json).inString, n);
  }

  /** The appended text: an optional quote, then `n` closing braces. */
  lemma CompletionTail(inString: bool, n: int)
    ensures var t := (if inString then "\"" else "") + (if n > 0 then Repeat('}', n) else "");
      var q := if inString then 1 else 0;
      && (|t| > 0 && t[0] == '"' <==> inString)
      && (forall i :: q <= i < |t| ==> t[i] == '}')
      && |t| == q + Max(n, 0)
  {
  }

  /** After completion `}` is at least as frequent as `{`, and equally frequent
      when the input had no more `}` than `{`. */
  lemma CompletionBalancesBraces(json: string)
    ensures var c := Completion(json);
      Count(c.json, '{') == Count(json, '{')
      && Count(c.json, '}') == Max(Count(json, '{'), Count(json, '}'))
  {
    CompletionCount(json, '{');
    CompletionCount(json, '}');
  }

  /** How often a brace occurs in the completed text. */
  lemma CompletionCount(json: string, b: char)
    requires b == '{' || b == '}'
    ensures var open := Count(json, '{');
      var close := Count(json, '}');
      Count(Completion(json).json, b)
        == Count(json, b) + (if b == '}' && open > close then open - close else 0)
  {
    var n := Count(json, '{') - Count(json, '}');
    CompletionText(json);
    CountAppend(json, "\"", b);
    assert Count(ClosedQuote(json), b) == Count(json, b);
    if n > 0 {
      CountAppend(ClosedQuote(json), Repeat('}', n), b);
      CountRepeat('}', n, b);
    }
  }

  lemma {:induction false} CountRepeat(c: char, n: nat, d: char)
    ensures Count(Repeat(c, n), d) == if c == d then n else 0
  {
    if n > 0 {
      assert Repeat(c, n) == [c] + Repeat(c, n - 1);
      CountRepeat(c, n - 1, d);
    }
  }

  /** Reading closing braces outside an escape never enters a string. */
  lemma {:induction false} ScanBracesOutside(s: string, n: nat)
    requires QuoteScan(s) == ScanState(false, false)
    ensures QuoteScan(s + Repeat('}', n)) == ScanState(false, false)
  {
    if n > 0 {
      ScanBracesOutside(s, n - 1);
      assert s + Repeat('}', n) == (s + Repeat('}', n - 1)) + ['}'];
      QuoteScanSnoc(s + Repeat('}', n - 1), '}');
    } else {
      assert s + Repeat('}', n) == s;
    }
  }

  /** When the input does not end on a dangling backslash, the completed text
      ends outside every string literal. */
  lemma CompletionClosesString(json: string)
    requires !QuoteScan(json).escaped
    ensures QuoteScan(Completion(json).json) == ScanState(false, false)
  {
    QuoteClosed(json);
    var n := Count(json, '{') - Count(json, '}');
    CompletionText(json);
    if n > 0 {
      ScanBracesOutside(ClosedQuote(json), n);
    }
  }

  lemma CompletionText(json: string)
    ensures var n := Count(json, '{') - Count(json, '}');
      Completion(json).json == if n > 0 then ClosedQuote(json) + Repeat('}', n) else ClosedQuote(json)
  {
  }

  /** Appending the missing quote leaves the scan outside every string. */
  lemma QuoteClosed(json: string)
    requires !QuoteScan(json).escaped
    ensures QuoteScan(ClosedQuote(json)) == ScanState(false, false)
  {
    if QuoteScan(json).inString {
      QuoteScanSnoc(json, '"');
    }
  }

  /** A reply cut right after a backslash inside a string: `{"a":"x\`. */
  const DanglingCut: string := ['{', '"', 'a', '"', ':', '"', 'x', '\\']

  lemma DanglingCutScan()
    ensures QuoteScan(DanglingCut) == ScanState(true, true)
  {
    assert DanglingCut[..0] == [];
    ScanPrefixStep(DanglingCut, 0);
    assert QuoteScan(DanglingCut[..1]) == ScanState(false, false);
    ScanPrefixStep(DanglingCut, 1);
    assert QuoteScan(DanglingCut[..2]) == ScanState(true, false);
    ScanPrefixStep(DanglingCut, 2);
    assert QuoteScan(DanglingCut[..3]) == ScanState(true, false);
    ScanPrefixStep(DanglingCut, 3);
    assert QuoteScan(DanglingCut[..4]) == ScanState(false, false);
    ScanPrefixStep(DanglingCut, 4);
    assert QuoteScan(DanglingCut[..5]) == ScanState(false, false);
    ScanPrefixStep(DanglingCut, 5);
    assert QuoteScan(DanglingCut[..6]) == ScanState(true, false);
    ScanPrefixStep(DanglingCut, 6);
    assert QuoteScan(DanglingCut[..7]) == ScanState(true, false);
    ScanPrefixStep(DanglingCut, 7);
    assert QuoteScan(DanglingCut[..8]) == ScanState(true, true);
    assert DanglingCut[..8] == DanglingCut;
  }

  lemma ScanPrefixStep(s: string, k: nat)
    requires k < |s|
    ensures QuoteScan(s[..k + 1]) == QuoteStep(QuoteScan(s[..k]), s[k])
  {
    assert s[..k + 1] == s[..k] + [s[k]];
    QuoteScanSnoc(s[..k], s[k]);
  }

  lemma DanglingCutCounts()
    ensures Count(DanglingCut, '{') == 1 && Count(DanglingCut, '}') == 0
  {
    var rest := DanglingCut[1..];
    assert DanglingCut == ['{'] + rest;
    CountAppend(['{'], rest, '{');
    CountAppend(['{'], rest, '}');
    CountZero(rest, '{');
    CountZero(rest, '}');
  }

  /** A cut ending in a backslash inside a string is not repaired: the appended
      quote is consumed as an escaped character and the text still ends inside
      the string literal. */
  lemma DanglingBackslashNotClosed()
    ensures QuoteScan(DanglingCut) == ScanState(true, true)
    ensures Completion(DanglingCut).json == DanglingCut + ['"', '}']
    ensures QuoteScan(Completion(DanglingCut).json).inString
  {
    DanglingCutScan();
    DanglingCutCounts();
    EscapedCutNotClosed(DanglingCut);
  }

  /** Any text that ends right after a backslash inside a string, with one
      object left open, gets the quote and one brace and still ends inside
      the string. */
  lemma EscapedCutNotClosed(s: string)
    requires QuoteScan(s) == ScanState(true, true)
    requires Count(s, '{') == Count(s, '}') + 1
    ensures Completion(s).json == s + ['"', '}']
    ensures QuoteScan(Completion(s).json).inString
  {
    CompletionText(s);
    var t := ClosedQuote(s);
    assert t == s + ['"'];
    assert Repeat('}', 1) == ['}'];
    assert Completion(s).json == t + ['}'];
    QuoteScanSnoc(s, '"');
    QuoteScanSnoc(t, '}');
  }

  /** `completeJSON` as the source writes it: one pass updating the scan flags,
      then the quote and the missing braces. */
  method CompleteJson(json: string) returns (completed: string, wasModified: bool)
    ensures Completed(completed, wasModified) == Completion(json)
  {
    completed := json;
    wasModified := false;
    var inString := false;
    var escaped := false;
    for i := 0 to |json|
      invariant ScanState(inString, escaped) == QuoteScan(json[..i])
    {
      assert json[..i + 1] == json[..i] + [json[i]];
      QuoteScanSnoc(json[..i], json[i]);
      var c := json[i];
      if escaped {
        escaped := false;
        continue;
      }
      if c == '\\' {
        escaped := true;
        continue;
      }
      if c == '"' {
        inString := !inString;
      }
    }
    assert json[..|json|] == json;
    if inString {
      completed := completed + "\"";
      wasModified := true;
    }
    var openBraces := Count(json, '{');
    var closeBraces := Count(json, '}');
    if openBraces > closeBraces {
      completed := completed + Repeat('}', openBraces - closeBraces);
      wasModified := true;
    }
  }

  // ---------------------------------------------------------------------------
  // Required fields

  const RequiredFields: seq<string> := ["html", "css", "js"]

  /** The entries of `fields`, in order, whose value in `parsed` is absent or falsy. */
  function FalsyFields(fields: seq<string>, parsed: Json): (r: seq<string>)
    ensures forall f :: f in r <==> f in fields && !TruthyOpt(Field(parsed, f))
    ensures |r| <= |fields|
  {
    if fields == [] then []
    else
      var last := fields[|fields| - 1];
      assert fields == fields[..|fields| - 1] + [last];
      FalsyFields(fields[..|fields| - 1], parsed) + (if TruthyOpt(Field(parsed, last)) then [] else [last])
  }

  /** `checkRequiredFields`: which of html, css and js are missing, in that order. */
  function MissingFields(parsed: Json): (r: seq<string>)
    ensures r == (if TruthyOpt(Field(parsed, "html")) then [] else ["html"])
               + (if TruthyOpt(Field(parsed, "css")) then [] else ["css"])
               + (if TruthyOpt(Field(parsed, "js")) then [] else ["js"])
  {
    var one := FalsyFields(["html"], parsed);
    assert ["html"][..0] == [];
    assert one == (if TruthyOpt(Field(parsed, "html")) then [] else ["html"]);
    var two := FalsyFields(["html", "css"], parsed);
    assert ["html", "css"][..1] == ["html"];
    assert two == one + (if TruthyOpt(Field(parsed, "css")) then [] else ["css"]);
    assert RequiredFields[..2] == ["html", "css"];
    FalsyFields(RequiredFields, parsed)
  }

  /** An empty string counts as missing. */
  lemma EmptyStringIsMissing(parsed: Json, f: string)
    requires f in RequiredFields
    requires Field(parsed, f) == Some(JStr(""))
    ensures f in MissingFields(parsed)
  {
  }

  /** The loop of `checkRequiredFields`, pushing each falsy field. */
  method CheckRequiredFields(parsed: Json) returns (missing: seq<string>)
    ensures missing == MissingFields(parsed)
  {
    missing := [];
    for i := 0 to |RequiredFields|
      invariant missing == FalsyFields(RequiredFields[..i], parsed)
    {
      var field := RequiredFields[i];
      assert RequiredFields[..i + 1][..i] == RequiredFields[..i];
      if !TruthyOpt(Field(parsed, field)) {
        missing := missing + [field];
      }
    }
    assert RequiredFields[..|RequiredFields|] == RequiredFields;
  }

  // ---------------------------------------------------------------------------
  // parseWithRecovery

  datatype ParseResult = ParseResult(
    success: bool,
    data: Option<Json>,
    isPartial: bool,
    missingFields: seq<string>,
    error: Option<string>)

  const NotAnObjectError := "Content does not start with {"
  const CompletionFailedPrefix := "Failed to parse even after completion: "

  /** `parseWithRecovery` */
  function ParseWithRecovery(content: string, decode: Decoder): (r: ParseResult)
    ensures var clean := CleanContent(content);
      && (!StartsWith(clean, "{") ==>
            !r.success && !r.isPartial && r.missingFields == [] && r.error == Some(NotAnObjectError))
      && (StartsWith(clean, "{") && decode(clean).Success? ==>
            r.success && !r.isPartial && r.data == Some(decode(clean).value))
      && (StartsWith(clean, "{") && decode(clean).Failure? ==>
            var c := Completion(clean);
            if decode(c.json).Success? then
              r.success && r.data == Some(decode(c.json).value) && r.isPartial == c.wasModified
            else
              !r.success && r.isPartial && r.missingFields == [])
    ensures r.success <==> r.data.Some?
    ensures r.success ==> r.missingFields == MissingFields(r.data.value) && r.error.None?
  {
    var clean := CleanContent(content);
    if !StartsWith(clean, "{") then
      ParseResult(false, None, false, [], Some(NotAnObjectError))
    else
      match decode(clean)
      case Success(v) => ParseResult(true, Some(v), false, MissingFields(v), None)
      case Failure(_) =>
        var c := Completion(clean);
        match decode(c.json)
        case Success(v) => ParseResult(true, Some(v), c.wasModified, MissingFields(v), None)
        case Failure(m) => ParseResult(false, None, true, [], Some(CompletionFailedPrefix + m))
  }

  /** Text that is not an object after cleaning is rejected without decoding:
      the outcome is the same whatever the decoder does. */
  lemma NoDecodeUnlessObject(content: string, d1: Decoder, d2: Decoder)
    requires !StartsWith(CleanContent(content), "{")
    ensures ParseWithRecovery(content, d1) == ParseWithRecovery(content, d2)
  {
  }

  /** A complete object is never reported partial, and a partial success only
      comes from text the completion changed. */
  lemma PartialOnlyAfterRepair(content: string, decode: Decoder)
    requires ParseWithRecovery(content, decode).success
    requires ParseWithRecovery(content, decode).isPartial
    ensures decode(CleanContent(content)).Failure?
    ensures Completion(CleanContent(content)).json != CleanContent(content)
  {
    CompletionShape(CleanContent(content));
  }
}
