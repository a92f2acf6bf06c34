/** `SurgicalEditService` (backend/src/services/surgical-edit.service.ts):
    choosing how a described change is made (CSS property edits, search and
    replace blocks, or whole files), the prompt each choice sends, reading the
    LLM's reply, and applying the edits to the code in order.

    The regular-expression rewrite of a CSS rule (`applyCSSEdit`) is the
    parameter `CssRewriter`; `JSON.parse` is the `Decoder` parameter and the
    LLM the `Provider` parameter. */
module SurgicalEdit {
  import opened Wrappers
  import opened Strings
  import opened JsValues
  import opened LlmBase
  import opened Editor
  import opened Commands
  import ChatStream
  import ChatTypes

  datatype EditType = CssSelector | SearchReplace | WholeFile

  /** The element selected in the preview, as the request describes it. */
  datatype SelectedElement = SelectedElement(selector: string, tagName: string, className: Option<string>, id: Option<string>)

  datatype EditRequest = EditRequest(description: string, currentCode: Code, selectedElement: Option<SelectedElement>)

  /** An edit of the reply.  `file` is `None` for a name other than 'html',
      'css' or 'js'; an edit of any other `type` is `OtherEdit`. */
  datatype Edit =
    | CssEdit(selector: string, property: string, value: string)
    | SearchReplaceEdit(file: Option<FileType>, search: string, replace: string)
    | WholeFileEdit(file: Option<FileType>, content: string)
    | OtherEdit

  // ---------------------------------------------------------------------------
  // Choosing the kind of edit

  const StyleKeywords := ["color", "background", "font", "size", "padding", "margin", "border", "width", "height", "style"]
  const TargetedKeywords := ["change", "replace", "update", "modify", "rename"]

  /** `analyzeEditType` */
  function AnalyzeEditType(description: string, hasSelection: bool): (t: EditType)
  {
    var lowered := ToLower(description);
    if ContainsAny(lowered, StyleKeywords) && hasSelection then CssSelector
    else if ContainsAny(lowered, TargetedKeywords) then SearchReplace
    else WholeFile
  }

  /** CSS property edits exactly for a selected element whose description
      names a style word; failing that, search and replace exactly when a
      targeting word occurs; whole files for everything else.  Case does not
      matter. */
  lemma EditTypeChoice(description: string, hasSelection: bool)
    ensures var t := AnalyzeEditType(description, hasSelection);
      var styled := hasSelection && exists k :: 0 <= k < |StyleKeywords| && Contains(ToLower(description), StyleKeywords[k]);
      var targeted := exists k :: 0 <= k < |TargetedKeywords| && Contains(ToLower(description), TargetedKeywords[k]);
      && (t == CssSelector <==> styled)
      && (t == SearchReplace <==> !styled && targeted)
      && (t == WholeFile <==> !styled && !targeted)
      && (t == WholeFile ==> forall k :: 0 <= k < |TargetedKeywords| ==> !Contains(ToLower(description), TargetedKeywords[k]))
      && (!hasSelection ==> t != CssSelector)
    ensures AnalyzeEditType(ToUpper(description), hasSelection) == AnalyzeEditType(description, hasSelection)
  {
    ContainsAnyIff(ToLower(description), StyleKeywords);
    ContainsAnyIff(ToLower(description), TargetedKeywords);
    LowerOfUpper(description);
  }

  // ---------------------------------------------------------------------------
  // Prompts

  /** The characters of the CSS the CSS-edit prompt shows. */
  const CssExcerpt := 1000
  /** The characters of HTML, CSS and JS the search-and-replace prompt shows. */
  const HtmlExcerpt := 800
  const StyleExcerpt := 600
  const ScriptExcerpt := 600

  /** The selected-element lines of the CSS-edit prompt; class and id only
      when non-empty. */
  function ElementLines(s: SelectedElement): string {
    "Selected element:\n"
    + "- Tag: " + s.tagName + "\n"
    + (if ChatTypes.Present(s.className) then "- Class: " + s.className.value + "\n" else "")
    + (if ChatTypes.Present(s.id) then "- ID: " + s.id.value + "\n" else "")
    + "- Selector: " + s.selector + "\n\n"
  }

  /** `buildCSSEditPrompt` */
  function CssEditPrompt(r: EditRequest): string {
    "User request: " + r.description + "\n\n"
    + (if r.selectedElement.Some? then ElementLines(r.selectedElement.value) else "")
    + "Current CSS (excerpt):\n" + Take(r.currentCode.css, CssExcerpt) + "\n\n"
    + "Generate CSS edits to fulfill the request."
  }

  /** `buildSearchReplacePrompt` */
  function SearchReplacePrompt(r: EditRequest): string {
    "User request: " + r.description + "\n\n"
    + "Current HTML:\n" + Take(r.currentCode.html, HtmlExcerpt) + "\n\n"
    + "Current CSS:\n" + Take(r.currentCode.css, StyleExcerpt) + "\n\n"
    + "Current JS:\n" + Take(r.currentCode.js, ScriptExcerpt) + "\n\n"
    + "Generate SEARCH/REPLACE blocks to make the requested changes."
  }

  /** `buildWholeFilePrompt` */
  function WholeFilePrompt(r: EditRequest): string {
    "User request: " + r.description + "\n\n"
    + "Current code:\n"
    + "HTML:\n" + r.currentCode.html + "\n\n"
    + "CSS:\n" + r.currentCode.css + "\n\n"
    + "JS:\n" + r.currentCode.js + "\n\n"
    + "Generate the complete updated files."
  }

  /** The CSS-edit prompt sees only the first 1000 characters of the CSS and
      none of the HTML or JS: requests that agree on those get the same
      prompt. */
  lemma CssPromptSeesExcerpt(a: EditRequest, b: EditRequest)
    requires a.description == b.description && a.selectedElement == b.selectedElement
    requires Take(a.currentCode.css, CssExcerpt) == Take(b.currentCode.css, CssExcerpt)
    ensures CssEditPrompt(a) == CssEditPrompt(b)
  {
  }

  /** The search-and-replace prompt sees only the first 800 characters of the
      HTML and 600 of the CSS and of the JS, and no selection. */
  lemma SearchReplacePromptSeesExcerpts(a: EditRequest, b: EditRequest)
    requires a.description == b.description
    requires Take(a.currentCode.html, HtmlExcerpt) == Take(b.currentCode.html, HtmlExcerpt)
    requires Take(a.currentCode.css, StyleExcerpt) == Take(b.currentCode.css, StyleExcerpt)
    requires Take(a.currentCode.js, ScriptExcerpt) == Take(b.currentCode.js, ScriptExcerpt)
    ensures SearchReplacePrompt(a) == SearchReplacePrompt(b)
  {
  }

  /** The excerpts are bounded: a long text is cut to its limit, a short one
      is shown whole. */
  lemma ExcerptBounds(s: string, n: nat)
    ensures |Take(s, n)| == Min(|s|, n)
    ensures |s| <= n ==> Take(s, n) == s
    ensures StartsWith(s, Take(s, n))
  {
  }

  /** The whole-file prompt shows each part in full. */
  lemma WholeFilePromptShowsCode(r: EditRequest)
    ensures Contains(WholeFilePrompt(r), r.currentCode.html)
    ensures Contains(WholeFilePrompt(r), r.currentCode.css)
    ensures Contains(WholeFilePrompt(r), r.currentCode.js)
  {
    var c := r.currentCode;
    var s0 := "User request: " + r.description + "\n\n" + "Current code:\n" + "HTML:\n";
    var s1 := s0 + c.html;
    var s2 := s1 + "\n\n" + "CSS:\n";
    var s3 := s2 + c.css;
    var s4 := s3 + "\n\n" + "JS:\n";
    var s5 := s4 + c.js;
    assert WholeFilePrompt(r) == s5 + "\n\n" + "Generate the complete updated files.";
    ContainsEnd(s0, c.html);
    ContainsGrow(s1, "\n\n", c.html);
    ContainsGrow(s1 + "\n\n", "CSS:\n", c.html);
    ContainsGrow(s2, c.css, c.html);
    ContainsEnd(s2, c.css);
    ContainsGrow(s3, "\n\n", c.html);
    ContainsGrow(s3, "\n\n", c.css);
    ContainsGrow(s3 + "\n\n", "JS:\n", c.html);
    ContainsGrow(s3 + "\n\n", "JS:\n", c.css);
    ContainsGrow(s4, c.js, c.html);
    ContainsGrow(s4, c.js, c.css);
    ContainsEnd(s4, c.js);
    ContainsGrow(s5, "\n\n", c.html);
    ContainsGrow(s5, "\n\n", c.css);
    ContainsGrow(s5, "\n\n", c.js);
    ContainsGrow(s5 + "\n\n", "Generate the complete updated files.", c.html);
    ContainsGrow(s5 + "\n\n", "Generate the complete updated files.", c.css);
    ContainsGrow(s5 + "\n\n", "Generate the complete updated files.", c.js);
  }

  /** The user prompt for a kind of edit. */
  function UserPrompt(t: EditType, r: EditRequest): string {
    match t
    case CssSelector => CssEditPrompt(r)
    case SearchReplace => SearchReplacePrompt(r)
    case WholeFile => WholeFilePrompt(r)
  }

  /** `getSystemPrompt`: the fixed instruction text of each kind, abbreviated
      here; no property depends on its wording. */
  function SystemPrompt(t: EditType): string {
    match t
    case CssSelector => "[CSS editing assistant instructions]"
    case SearchReplace => "[SEARCH/REPLACE instructions]"
    case WholeFile => "[whole-file instructions]"
  }

  // ---------------------------------------------------------------------------
  // Reading the reply

  /** `s.replace(/^p/, '')` */
  function DropPrefix(s: string, p: string): (r: string)
    ensures StartsWith(s, p) ==> s == p + r
    ensures !StartsWith(s, p) ==> r == s
  {
    if StartsWith(s, p) then s[|p|..] else s
  }

  /** `s.replace(/p$/, '')` */
  function DropSuffix(s: string, p: string): (r: string)
    ensures EndsWith(s, p) ==> s == r + p
    ensures !EndsWith(s, p) ==> r == s
  {
    if EndsWith(s, p) then s[..|s| - |p|] else s
  }

  /** The reply trimmed, and unwrapped from a ```` ```json ```` or ```` ``` ````
      fence whose markers sit on their own lines. */
  function Unfenced(content: string): string {
    var trimmed := Trim(content);
    if StartsWith(trimmed, "```json") then DropSuffix(DropPrefix(trimmed, "```json\n"), "\n```")
    else if StartsWith(trimmed, "```") then DropSuffix(DropPrefix(trimmed, "```\n"), "\n```")
    else trimmed
  }

  /** A body fenced as ```` ```json ```` comes back exactly. */
  lemma JsonFencedBodyRecovered(body: string)
    ensures Unfenced("```json\n" + body + "\n```") == body
  {
    var a := "```json\n" + body + "\n```";
    assert a[0] == '`' && a[|a| - 1] == '`';
    TrimOfTrimmed(a);
    assert a[..8] == "```json\n" && a[..7] == "```json";
    assert a[8..] == body + "\n```";
    var d := body + "\n```";
    assert d[|d| - 4..] == "\n```" && d[..|d| - 4] == body;
  }

  /** A body fenced as ```` ``` ```` comes back exactly. */
  lemma PlainFencedBodyRecovered(body: string)
    ensures Unfenced("```\n" + body + "\n```") == body
  {
    var b := "```\n" + body + "\n```";
    assert b[0] == '`' && b[|b| - 1] == '`';
    TrimOfTrimmed(b);
    assert b[3] == '\n';
    assert !StartsWith(b, "```json");
    assert b[..4] == "```\n" && b[..3] == "```";
    assert b[4..] == body + "\n```";
    var d := body + "\n```";
    assert d[|d| - 4..] == "\n```" && d[..|d| - 4] == body;
  }

  /** A reply without a fence is only trimmed. */
  lemma UnfencedPlain(content: string)
    requires !StartsWith(Trim(content), "```")
    ensures Unfenced(content) == Trim(content)
  {
    NoFenceNoJsonFence(Trim(content));
  }

  /** A text that does not open a fence does not open a ```` ```json ````
      fence either. */
  lemma NoFenceNoJsonFence(t: string)
    requires !StartsWith(t, "```")
    ensures !StartsWith(t, "```json")
  {
    if |t| >= 7 {
      assert t[..7][..3] == t[..3];
      assert "```json"[..3] == "```";
    }
  }

  datatype EditResponse = EditResponse(edits: Json, explanation: string, editType: EditType)

  const ParseFailure := "Failed to parse LLM response for surgical edit"

  /** `parseResponse`: the edits (or an empty list), the explanation (or 'Code
      updated') and the kind asked for.  A reply that does not decode, or
      decodes to `null`, throws. */
  function ParseResponse(content: string, editType: EditType, decode: Decoder): (r: Result<EditResponse, string>)
  {
    var parsed := decode(Unfenced(content));
    if parsed.Failure? || parsed.value.JNull? then Failure(ParseFailure)
    else
      var edits := Field(parsed.value, "edits");
      Success(EditResponse(
        if TruthyOpt(edits) then edits.value else JArr([]),
        TextOr(Field(parsed.value, "explanation"), "Code updated"),
        editType))
  }

  /** Reading fails, always with the same message, exactly when the unfenced
      reply does not decode to a non-null value; otherwise the kind is passed
      through, a missing or empty edit list becomes `[]` and a missing or empty
      explanation 'Code updated'. */
  lemma ParseResponseOutcome(content: string, editType: EditType, decode: Decoder)
    ensures var r := ParseResponse(content, editType, decode);
      var parsed := decode(Unfenced(content));
      && (r.Failure? <==> parsed.Failure? || parsed.value.JNull?)
      && (r.Failure? ==> r.error == ParseFailure)
      && (r.Success? ==>
            && r.value.editType == editType
            && (!TruthyOpt(Field(parsed.value, "edits")) ==> r.value.edits == JArr([]))
            && (!TruthyOpt(Field(parsed.value, "explanation")) ==> r.value.explanation == "Code updated"))
  {
  }

  /** The completion request `generateSurgicalEdit` sends for kind `t`. */
  function EditLlmRequest(t: EditType, r: EditRequest): (request: LlmRequest)
    ensures request.messages == [LlmMessage(SystemRole, SystemPrompt(t)), LlmMessage(UserRole, UserPrompt(t, r))]
    ensures request.temperature == Some(0.3) && request.maxTokens == Some(2000)
  {
    LlmRequest([LlmMessage(SystemRole, SystemPrompt(t)), LlmMessage(UserRole, UserPrompt(t, r))],
      Some(0.3), Some(2000), None, None, None)
  }

  /** `generateSurgicalEdit`: the kind is chosen from the description and the
      selection, its system and user prompts are sent with 2000 tokens at
      temperature 0.3, and the reply is read as that kind.  Nothing is caught:
      a rejected completion propagates unchanged, and a reply that cannot be
      read throws an `Error` with the fixed message. */
  function GenerateSurgicalEdit(r: EditRequest, llm: ChatStream.Provider, decode: Decoder)
    : (result: Result<EditResponse, ChatStream.Thrown>)
    ensures result.Success? ==> result.value.editType == AnalyzeEditType(r.description, r.selectedElement.Some?)
    ensures var t := AnalyzeEditType(r.description, r.selectedElement.Some?);
      var reply := llm.complete(EditLlmRequest(t, r));
      && (reply.Failure? ==> result == Failure(reply.error))
      && (reply.Success? ==>
            && (result.Success? <==> ParseResponse(reply.value, t, decode).Success?)
            && (result.Success? ==> result.value == ParseResponse(reply.value, t, decode).value)
            && (result.Failure? ==> result.error == ChatStream.ErrorValue(ParseFailure)))
  {
    var t := AnalyzeEditType(r.description, r.selectedElement.Some?);
    match llm.complete(EditLlmRequest(t, r))
    case Failure(thrown) => Failure(thrown)
    case Success(content) =>
      var parsed := ParseResponse(content, t, decode);
      if parsed.Success? then Success(parsed.value) else Failure(ChatStream.ErrorValue(ParseFailure))
  }

  // ---------------------------------------------------------------------------
  // Applying edits

  /** `applyCSSEdit`: a regular-expression rewrite of the CSS. */
  type CssRewriter = (string, string, string, string) -> string

  /** The part of the code a file name stands for. */
  function PartOfCode(c: Code, f: FileType): string {
    match f
    case HtmlFile => c.html
    case CssFile => c.css
    case JsFile => c.js
  }

  function WithPart(c: Code, f: FileType, content: string): (r: Code)
    ensures PartOfCode(r, f) == content
    ensures forall g :: g != f ==> PartOfCode(r, g) == PartOfCode(c, g)
  {
    match f
    case HtmlFile => c.(html := content)
    case CssFile => c.(css := content)
    case JsFile => c.(js := content)
  }

  /** `applySearchReplaceEdit`: the first occurrence of the search text in the
      named part is replaced; an unknown file changes nothing. */
  function ApplySearchReplace(c: Code, file: Option<FileType>, search: string, replace: string): (r: Code)
  {
    if file.None? then c else WithPart(c, file.value, ReplaceFirst(PartOfCode(c, file.value), search, replace))
  }

  /** `applyWholeFileEdit`: the named part becomes the content. */
  function ApplyWholeFile(c: Code, file: Option<FileType>, content: string): (r: Code)
  {
    if file.None? then c else WithPart(c, file.value, content)
  }

  /** One edit. */
  function ApplyEdit(c: Code, e: Edit, rewrite: CssRewriter): Code {
    match e
    case CssEdit(selector, property, value) => c.(css := rewrite(c.css, selector, property, value))
    case SearchReplaceEdit(file, search, replace) => ApplySearchReplace(c, file, search, replace)
    case WholeFileEdit(file, content) => ApplyWholeFile(c, file, content)
    case OtherEdit => c
  }

  /** The edits in order, each on the result of the ones before. */
  function ApplyAll(c: Code, edits: seq<Edit>, rewrite: CssRewriter): Code {
    if edits == [] then c else ApplyEdit(ApplyAll(c, edits[..|edits| - 1], rewrite), edits[|edits| - 1], rewrite)
  }

  /** `applyEdits` */
  method ApplyEdits(currentCode: Code, edits: seq<Edit>, rewrite: CssRewriter) returns (result: Code)
    ensures result == ApplyAll(currentCode, edits, rewrite)
  {
    result := currentCode;
    for i := 0 to |edits|
      invariant result == ApplyAll(currentCode, edits[..i], rewrite)
    {
      assert edits[..i + 1][..i] == edits[..i];
      var edit := edits[i];
      match edit {
        case CssEdit(selector, property, value) =>
          result := result.(css := rewrite(result.css, selector, property, value));
        case SearchReplaceEdit(file, search, replace) =>
          result := ApplySearchReplace(result, file, search, replace);
        case WholeFileEdit(file, content) =>
          result := ApplyWholeFile(result, file, content);
        case OtherEdit =>
      }
    }
    assert edits[..|edits|] == edits;
  }

  /** Which part an edit may change. */
  predicate Touches(e: Edit, f: FileType) {
    match e
    case CssEdit(_, _, _) => f == CssFile
    case SearchReplaceEdit(file, _, _) => file == Some(f)
    case WholeFileEdit(file, _) => file == Some(f)
    case OtherEdit => false
  }

  /** A search-and-replace edit rewrites the first occurrence in its own part
      and keeps the rest of it; without an occurrence nothing changes. */
  lemma SearchReplaceEffect(c: Code, f: FileType, search: string, replace: string)
    ensures var r := ApplySearchReplace(c, Some(f), search, replace);
      var part := PartOfCode(c, f);
      && (!Contains(part, search) ==> r == c)
      && (Contains(part, search) ==>
            var i := IndexOf(part, search);
            PartOfCode(r, f) == part[..i] + replace + part[i + |search|..])
      && forall g :: g != f ==> PartOfCode(r, g) == PartOfCode(c, g)
  {
    if !Contains(PartOfCode(c, f), search) {
      match f
      case HtmlFile =>
      case CssFile =>
      case JsFile =>
    }
  }

  /** The parts no edit names come through any sequence of edits unchanged;
      in particular CSS property edits never change the HTML or the JS. */
  lemma {:induction false} UntouchedPartsKept(c: Code, edits: seq<Edit>, rewrite: CssRewriter, f: FileType)
    requires forall k :: 0 <= k < |edits| ==> !Touches(edits[k], f)
    ensures PartOfCode(ApplyAll(c, edits, rewrite), f) == PartOfCode(c, f)
  {
    if edits != [] {
      UntouchedPartsKept(c, edits[..|edits| - 1], rewrite, f);
    }
  }

  /** Applying one list and then another is applying the two in sequence. */
  lemma {:induction false} ApplyAllAppend(c: Code, a: seq<Edit>, b: seq<Edit>, rewrite: CssRewriter)
    ensures ApplyAll(c, a + b, rewrite) == ApplyAll(ApplyAll(c, a, rewrite), b, rewrite)
  {
    if b == [] {
      assert a + b == a;
    } else {
      ApplyAllAppend(c, a, b[..|b| - 1], rewrite);
      assert (a + b)[..|a + b| - 1] == a + b[..|b| - 1];
    }
  }

  /** A whole-file edit fixes its part whatever came before it. */
  lemma LastWholeFileWins(c: Code, edits: seq<Edit>, f: FileType, content: string, rewrite: CssRewriter)
    ensures PartOfCode(ApplyAll(c, edits + [WholeFileEdit(Some(f), content)], rewrite), f) == content
  {
    assert (edits + [WholeFileEdit(Some(f), content)])[..|edits|] == edits;
  }

  // ---------------------------------------------------------------------------
  // Escaping for regular expressions

  /** The characters that have a meaning in a regular expression. */
  predicate IsRegexSpecial(c: char) {
    c in ".*+?^${}()|[]\\"
  }

  /** `escapeRegex`: a backslash before every special character. */
  function EscapeRegex(s: string): (r: string)
    ensures |r| >= |s|
  {
    if s == [] then []
    else (if IsRegexSpecial(s[0]) then ['\\', s[0]] else [s[0]]) + EscapeRegex(s[1..])
  }

  /** How a regular expression reads an escaped text back: a backslash stands
      for the character after it. */
  function Unescape(t: string): string {
    if t == [] then []
    else if t[0] == '\\' && |t| > 1 then [t[1]] + Unescape(t[2..])
    else [t[0]] + Unescape(t[1..])
  }

  /** Escaping loses nothing: the escaped text reads back as the original. */
  lemma {:induction false} EscapeRoundTrip(s: string)
    ensures Unescape(EscapeRegex(s)) == s
  {
    if s != [] {
      EscapeRoundTrip(s[1..]);
      var rest := EscapeRegex(s[1..]);
      if IsRegexSpecial(s[0]) {
        assert (['\\', s[0]] + rest)[2..] == rest;
      } else {
        assert ([s[0]] + rest)[1..] == rest;
      }
    }
  }

  /** Ordinary characters are kept as they are. */
  lemma {:induction false} EscapePlain(s: string)
    requires forall i :: 0 <= i < |s| ==> !IsRegexSpecial(s[i])
    ensures EscapeRegex(s) == s
  {
    if s != [] {
      EscapePlain(s[1..]);
    }
  }
}
