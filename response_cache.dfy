/** `ResponseCacheService` (backend/src/services/response-cache.service.ts): LLM
    replies saved as files named after their prompts, and the lookup the mock
    route uses, which prefers the file of the exact prompt and otherwise takes
    the first listed file whose prompt shares enough keywords.

    The cache directory is a sequence of files in listing order; a file's
    contents are its decoded record, or `None` when it does not decode.  The
    clock that stamps a record is a parameter. */
module ResponseCache {
  import opened Wrappers
  import opened Strings
  import opened JsValues

  // ---------------------------------------------------------------------------
  // File names and keywords

  predicate IsAlnum(c: char) {
    IsAsciiLower(c) || IsDigit(c)
  }

  /** `s.replace(/[^a-z0-9\s]/g, '')` */
  function Sanitize(s: string): (r: string)
    ensures forall c :: c in r ==> IsAlnum(c) || IsSpace(c)
    ensures forall c :: c in s && (IsAlnum(c) || IsSpace(c)) ==> c in r
  {
    if s == [] then []
    else (if IsAlnum(s[0]) || IsSpace(s[0]) then [s[0]] else []) + Sanitize(s[1..])
  }

  /** The words of a sanitized prompt, as `split(/\s+/)` cuts them. */
  function Words(s: string): seq<string> {
    SplitRuns(Sanitize(ToLower(s)))
  }

  /** The name without its extension: at most the first five words of the
      trimmed, sanitized, lower-cased prompt, joined by '-'. */
  function Stem(prompt: string): string {
    Join(Take5(SplitRuns(Trim(Sanitize(ToLower(prompt))))), "-")
  }

  function Take5(words: seq<string>): (r: seq<string>)
    ensures |r| == Min(|words|, 5) && r == words[..|r|]
  {
    if |words| <= 5 then words else words[..5]
  }

  /** `generateFilename` */
  function GenerateFilename(prompt: string): (name: string)
    ensures EndsWith(name, ".json")
  {
    Stem(prompt) + ".json"
  }

  /** A file name is lower-case letters, digits and dashes before `.json`;
      prompts that differ only in case share their file. */
  lemma FilenameShape(prompt: string)
    ensures var name := GenerateFilename(prompt);
      forall i :: 0 <= i < |name| - 5 ==> name[i] == '-' || IsAlnum(name[i])
    ensures GenerateFilename(ToUpper(prompt)) == GenerateFilename(prompt)
  {
    StemChars(prompt);
    var name := GenerateFilename(prompt);
    forall i | 0 <= i < |name| - 5 ensures name[i] == '-' || IsAlnum(name[i]) {
      assert name[i] == Stem(prompt)[i];
      assert name[i] in Stem(prompt);
    }
    LowerOfUpper(prompt);
  }

  /** The stem is made of lower-case letters, digits and dashes. */
  lemma StemChars(prompt: string)
    ensures forall c :: c in Stem(prompt) ==> c == '-' || IsAlnum(c)
  {
    var sanitized := Sanitize(ToLower(prompt));
    var clean := Trim(sanitized);
    TrimKeepsChars(sanitized);
    KeptPiecesAlnum(clean);
    JoinChars(Take5(SplitRuns(clean)), "-");
  }

  /** The words kept from a text of letters, digits and spaces hold letters
      and digits only. */
  lemma KeptPiecesAlnum(clean: string)
    requires forall c :: c in clean ==> IsAlnum(c) || IsSpace(c)
    ensures forall p, c :: p in Take5(SplitRuns(clean)) && c in p ==> IsAlnum(c)
  {
    var pieces := SplitRuns(clean);
    SplitRunsChars(clean);
    var kept := Take5(pieces);
    forall p, c | p in kept && c in p ensures IsAlnum(c) {
      var k :| 0 <= k < |kept| && kept[k] == p;
      assert pieces[k] == p;
      assert !IsSpace(c);
    }
  }

  /** Trimming keeps only characters of the text. */
  lemma TrimKeepsChars(s: string)
    ensures forall c :: c in Trim(s) ==> c in s
  {
    var clean := Trim(s);
    var a := |s| - |TrimStart(s)|;
    assert TrimmedAt(s, clean, a);
    forall c | c in clean ensures c in s {
      var k :| 0 <= k < |clean| && clean[k] == c;
      assert s[a + k] == c;
    }
  }

  /** Every character of a piece of `split(/\s+/)` comes from the text. */
  lemma {:induction false} SplitRunsChars(s: string)
    ensures forall p, c :: p in SplitRuns(s) && c in p ==> c in s
    decreases |s|
  {
    var i := FirstSpaceFrom(s, 0);
    if i < |s| {
      var j := SpaceRunEnd(s, i);
      SplitRunsChars(s[j..]);
      assert SplitRuns(s) == [s[..i]] + SplitRuns(s[j..]);
      forall p, c | p in SplitRuns(s) && c in p ensures c in s {
        if p == s[..i] {
          var k :| 0 <= k < |p| && p[k] == c;
          assert s[k] == c;
        } else {
          assert p in SplitRuns(s[j..]);
          assert c in s[j..];
          var k :| 0 <= k < |s[j..]| && s[j..][k] == c;
          assert s[j + k] == c;
        }
      }
    }
  }

  /** Every character of a join is a separator character or comes from a part. */
  lemma {:induction false} JoinChars(parts: seq<string>, sep: string)
    ensures forall c :: c in Join(parts, sep) ==> c in sep || exists p :: p in parts && c in p
    decreases |parts|
  {
    if |parts| > 1 {
      JoinChars(parts[1..], sep);
      var rest := Join(parts[1..], sep);
      assert Join(parts, sep) == parts[0] + sep + rest;
      forall c | c in Join(parts, sep) ensures c in sep || exists p :: p in parts && c in p {
        if c in parts[0] {
          assert parts[0] in parts;
        } else if c !in sep {
          assert c in rest;
          var p :| p in parts[1..] && c in p;
          assert p in parts;
        }
      }
    } else if |parts| == 1 {
      assert parts[0] in parts;
    }
  }

  const StopWords := ["a", "an", "the", "and", "or", "but", "in", "on", "at", "to", "for", "of", "with", "create", "make", "build"]

  /** A word counts when it is longer than two characters and no stop word. */
  predicate IsKeyword(w: string) {
    |w| > 2 && w !in StopWords
  }

  function KeptWords(words: seq<string>): (r: seq<string>)
    ensures |r| <= |words|
  {
    if words == [] then []
    else (if IsKeyword(words[0]) then [words[0]] else []) + KeptWords(words[1..])
  }

  /** `extractKeywords` */
  function ExtractKeywords(text: string): seq<string> {
    KeptWords(Words(text))
  }

  /** The keywords are exactly the words of the text that count, in order. */
  lemma {:induction false} KeptWordsIff(words: seq<string>, w: string)
    ensures w in KeptWords(words) <==> w in words && IsKeyword(w)
  {
    if words != [] {
      KeptWordsIff(words[1..], w);
      assert words == [words[0]] + words[1..];
    }
  }

  /** The number of entries of `a` that occur in `b`, repeats included. */
  function Shared(a: seq<string>, b: seq<string>): (n: nat)
    ensures n <= |a|
  {
    if a == [] then 0 else (if a[0] in b then 1 else 0) + Shared(a[1..], b)
  }

  /** `calculateMatchScore` */
  function MatchScore(k1: seq<string>, k2: seq<string>): (score: real)
    ensures 0.0 <= score <= 1.0
    ensures k1 == [] || k2 == [] ==> score == 0.0
  {
    if |k1| == 0 || |k2| == 0 then 0.0
    else (Shared(k1, k2) as real) / (Max(|k1|, |k2|) as real)
  }

  lemma {:induction false} SharedSelf(a: seq<string>, b: seq<string>)
    requires forall i :: 0 <= i < |a| ==> a[i] in b
    ensures Shared(a, b) == |a|
  {
    if a != [] {
      SharedSelf(a[1..], b);
    }
  }

  /** A non-empty keyword list matches itself fully, and shares nothing with
      a disjoint one. */
  lemma ScoreExtremes(k1: seq<string>, k2: seq<string>)
    ensures k1 != [] ==> MatchScore(k1, k1) == 1.0
    ensures (forall i :: 0 <= i < |k1| ==> k1[i] !in k2) ==> MatchScore(k1, k2) == 0.0
  {
    SharedSelf(k1, k1);
    if k1 != [] {
      assert Max(|k1|, |k1|) == |k1|;
      assert (|k1| as real) / (|k1| as real) == 1.0;
    }
    if forall i :: 0 <= i < |k1| ==> k1[i] !in k2 {
      SharedNone(k1, k2);
    }
  }

  lemma {:induction false} SharedNone(a: seq<string>, b: seq<string>)
    requires forall i :: 0 <= i < |a| ==> a[i] !in b
    ensures Shared(a, b) == 0
  {
    if a != [] {
      SharedNone(a[1..], b);
    }
  }

  // ---------------------------------------------------------------------------
  // The directory

  /** The lengths a saved record notes. */
  datatype Metadata = Metadata(htmlLength: nat, cssLength: nat, jsLength: nat)

  /** A saved record: the prompt, the reply, when it was saved and its
      lengths. */
  datatype CacheData = CacheData(prompt: string, response: Json, timestamp: string, metadata: Metadata)

  /** A file of the directory: its name and its decoded record, if any. */
  datatype CacheFile = CacheFile(filename: string, data: Option<CacheData>)

  /** `v?.length || 0` for a field of the reply: a text's or an array's
      length, an object's positive numeric `length` member, and 0 otherwise. */
  function LengthOf(o: Option<Json>): (n: nat)
    ensures o.Some? && o.value.JStr? ==> n == |o.value.s|
    ensures o.Some? && o.value.JArr? ==> n == |o.value.items|
    ensures o.None? || o.value.JNull? || o.value.JNum? || o.value.JBool? ==> n == 0
    ensures o.Some? && o.value.JObj? ==>
      n == (match Field(o.value, "length") case Some(JNum(k)) => if k > 0 then k else 0 case _ => 0)
  {
    if o.Some? && o.value.JStr? then |o.value.s|
    else if o.Some? && o.value.JArr? then |o.value.items|
    else if o.Some? && o.value.JObj? then
      match Field(o.value, "length")
      case Some(JNum(k)) => if k > 0 then k else 0
      case _ => 0
    else 0
  }

  /** The record `saveResponse` writes. */
  function Record(prompt: string, response: Json, now: string): CacheData {
    CacheData(prompt, response, now,
      Metadata(LengthOf(Field(response, "html")), LengthOf(Field(response, "css")), LengthOf(Field(response, "js"))))
  }

  /** The directory with `name` holding `data`: a file of that name is
      overwritten in place, otherwise the file is added. */
  function Written(dir: seq<CacheFile>, name: string, data: CacheData): (r: seq<CacheFile>)
    ensures Lookup(r, name) == Some(CacheFile(name, Some(data)))
    ensures forall f :: f in dir && f.filename != name ==> f in r
  {
    if dir == [] then [CacheFile(name, Some(data))]
    else if dir[0].filename == name then [CacheFile(name, Some(data))] + dir[1..]
    else [dir[0]] + Written(dir[1..], name, data)
  }

  /** `saveResponse`: the record is written under the prompt's file name.  A
      null reply makes `response.html` throw before the write; the error is
      caught and logged, so the directory stays as it was. */
  function SaveResponse(dir: seq<CacheFile>, prompt: string, response: Json, now: string): seq<CacheFile> {
    if response.JNull? then dir
    else Written(dir, GenerateFilename(prompt), Record(prompt, response, now))
  }

  /** Saving a null reply writes nothing. */
  lemma NullNotSaved(dir: seq<CacheFile>, prompt: string, now: string)
    ensures SaveResponse(dir, prompt, JNull, now) == dir
  {
  }

  /** The file of a name: the first of that name. */
  function Lookup(dir: seq<CacheFile>, name: string): (r: Option<CacheFile>)
    ensures r.Some? ==> r.value in dir && r.value.filename == name
    ensures r.None? ==> forall f :: f in dir ==> f.filename != name
  {
    if dir == [] then None else if dir[0].filename == name then Some(dir[0]) else Lookup(dir[1..], name)
  }

  /** `loadResponse`: the reply saved under the prompt's file name; nothing
      when there is no such file or it does not decode. */
  function LoadResponse(dir: seq<CacheFile>, prompt: string): Option<Json> {
    var f := Lookup(dir, GenerateFilename(prompt));
    if f.Some? && f.value.data.Some? then Some(f.value.data.value.response) else None
  }

  /** A reply that is not null, once saved, can be loaded back by the same
      prompt, and by any prompt that differs from it only in case. */
  lemma SaveThenLoad(dir: seq<CacheFile>, prompt: string, response: Json, now: string)
    requires !response.JNull?
    ensures LoadResponse(SaveResponse(dir, prompt, response, now), prompt) == Some(response)
    ensures LoadResponse(SaveResponse(dir, prompt, response, now), ToUpper(prompt)) == Some(response)
  {
    FilenameShape(prompt);
  }

  /** The saved lengths are those of the reply's text fields, 0 for a
      missing one. */
  lemma RecordLengths(prompt: string, html: string, css: string, now: string)
    ensures var m := Record(prompt, JObj(map["html" := JStr(html), "css" := JStr(css)]), now).metadata;
      m.htmlLength == |html| && m.cssLength == |css| && m.jsLength == 0
  {
    var response := JObj(map["html" := JStr(html), "css" := JStr(css)]);
    assert "js" !in response.fields;
  }

  /** A listed response of `getAllResponses`. */
  datatype Listed = Listed(filename: string, prompt: string, response: Json)

  /** `getAllResponses`: the `.json` files that decode, in listing order.  The
      reply is kept alongside for the lookup, which reads the file again. */
  function AllResponses(dir: seq<CacheFile>): (r: seq<Listed>)
    ensures |r| <= |dir|
  {
    if dir == [] then []
    else
      var f := dir[0];
      (if EndsWith(f.filename, ".json") && f.data.Some? then [Listed(f.filename, f.data.value.prompt, f.data.value.response)] else [])
      + AllResponses(dir[1..])
  }

  /** The threshold a keyword score must exceed. */
  const MatchThreshold: real := 0.5

  /** A listed prompt scores above the threshold against `keywords`: more
      than half of the longer keyword list is shared. */
  predicate Similar(keywords: seq<string>, l: Listed) {
    var other := ExtractKeywords(ToLower(l.prompt));
    |keywords| > 0 && |other| > 0 && 2 * Shared(keywords, other) > Max(|keywords|, |other|)
  }

  /** `Similar` is the comparison `calculateMatchScore(...) > 0.5`. */
  lemma SimilarIsAboveThreshold(keywords: seq<string>, l: Listed)
    ensures Similar(keywords, l) <==> MatchScore(keywords, ExtractKeywords(ToLower(l.prompt))) > MatchThreshold
  {
    var other := ExtractKeywords(ToLower(l.prompt));
    if |keywords| > 0 && |other| > 0 {
      var shared := Shared(keywords, other);
      var longest := Max(|keywords|, |other|);
      assert MatchScore(keywords, other) == (shared as real) / (longest as real);
      MoreThanHalf(shared as real, longest as real);
      assert 2.0 * (shared as real) > longest as real <==> 2 * shared > longest;
    }
  }

  /** A ratio is above one half exactly when twice the numerator exceeds the
      denominator. */
  lemma MoreThanHalf(n: real, d: real)
    requires d > 0.0
    ensures n / d > 0.5 <==> 2.0 * n > d
  {
    var q := n / d;
    assert q * d == n;
    if q > 0.5 {
      assert (q - 0.5) * d > 0.0;
    }
    if 2.0 * n > d {
      assert (q - 0.5) * d == n - 0.5 * d;
    }
  }

  /** The first listed response whose prompt scores above the threshold. */
  function FirstFuzzy(keywords: seq<string>, listed: seq<Listed>): Option<Json> {
    if listed == [] then None
    else if Similar(keywords, listed[0]) then Some(listed[0].response)
    else FirstFuzzy(keywords, listed[1..])
  }

  /** `findBestMatch` as a value: the exact prompt's reply when it is truthy,
      else the first fuzzy match, else nothing. */
  function BestMatch(dir: seq<CacheFile>, prompt: string): Option<Json> {
    var exact := LoadResponse(dir, prompt);
    if TruthyOpt(exact) then exact else FirstFuzzy(ExtractKeywords(ToLower(prompt)), AllResponses(dir))
  }

  /** `findBestMatch` */
  method FindBestMatch(dir: seq<CacheFile>, prompt: string) returns (r: Option<Json>)
    ensures r == BestMatch(dir, prompt)
  {
    var allResponses := AllResponses(dir);
    var promptLower := ToLower(prompt);
    var exactMatch := LoadResponse(dir, prompt);
    if TruthyOpt(exactMatch) {
      return exactMatch;
    }
    var keywords := ExtractKeywords(promptLower);
    var i := 0;
    while i < |allResponses|
      invariant 0 <= i <= |allResponses|
      invariant FirstFuzzy(keywords, allResponses) == FirstFuzzy(keywords, allResponses[i..])
    {
      var cached := allResponses[i];
      var cachedKeywords := ExtractKeywords(ToLower(cached.prompt));
      var matchScore := MatchScore(keywords, cachedKeywords);
      assert allResponses[i..][1..] == allResponses[i + 1..];
      SimilarIsAboveThreshold(keywords, cached);
      if matchScore > MatchThreshold {
        return Some(cached.response);
      }
      i := i + 1;
    }
    return None;
  }

  /** A fuzzy match is a listed response scoring above the threshold, and
      every response listed before it scores at most the threshold; without
      a match none scores above it. */
  lemma {:induction false} FuzzyIsFirstAbove(keywords: seq<string>, listed: seq<Listed>)
    ensures var r := FirstFuzzy(keywords, listed);
      && (r.None? ==> forall i :: 0 <= i < |listed| ==> !Similar(keywords, listed[i]))
      && (r.Some? ==>
            exists i :: (0 <= i < |listed| && listed[i].response == r.value && Similar(keywords, listed[i])
              && forall j :: 0 <= j < i ==> !Similar(keywords, listed[j])))
  {
    if listed != [] {
      var tail := listed[1..];
      FuzzyIsFirstAbove(keywords, tail);
      var r := FirstFuzzy(keywords, listed);
      if !Similar(keywords, listed[0]) {
        assert r == FirstFuzzy(keywords, tail);
        assert forall i :: 1 <= i < |listed| ==> listed[i] == tail[i - 1];
        if r.Some? {
          var i :| 0 <= i < |tail| && tail[i].response == r.value && Similar(keywords, tail[i])
            && forall j :: 0 <= j < i ==> !Similar(keywords, tail[j]);
          assert listed[i + 1] == tail[i];
          assert forall j :: 0 <= j < i + 1 ==> !Similar(keywords, listed[j]) by {
            forall j | 0 <= j < i + 1
              ensures !Similar(keywords, listed[j])
            {
              if j > 0 {
                assert listed[j] == tail[j - 1];
              }
            }
          }
        }
      } else {
        assert listed[0].response == r.value;
      }
    }
  }

  /** The exact prompt's saved reply wins over every fuzzy match when it is
      truthy. */
  lemma ExactMatchFirst(dir: seq<CacheFile>, prompt: string, response: Json, now: string)
    requires Truthy(response)
    ensures BestMatch(SaveResponse(dir, prompt, response, now), prompt) == Some(response)
  {
    SaveThenLoad(dir, prompt, response, now);
  }

  /** `clearCache` removes every file. */
  function ClearCache(dir: seq<CacheFile>): (r: seq<CacheFile>)
    ensures AllResponses(r) == []
    ensures forall prompt :: BestMatch(r, prompt) == None
  {
    []
  }
}
