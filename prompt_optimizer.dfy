/** `PromptOptimizer` (backend/src/utils/prompt-optimizer.ts): a complexity score
    from keywords, word count and entities, and the prompt strategy chosen from
    it and from the retry attempt.  Scores are counted in tenths (0.2 is 2,
    1.0 is 10), so the arithmetic is exact. */
module PromptOptimizer {
  import opened Strings

  datatype StrategyKind = Standard | Concise | Minimal

  datatype PromptStrategy = PromptStrategy(kind: StrategyKind, maxTokens: int, focusAreas: seq<string>)

  const ComplexKeywords: seq<string> := ["dashboard", "crm", "admin", "management", "system", "platform", "portal"]
  const FeatureKeywords: seq<string> := ["crud", "search", "filter", "sort", "chart", "graph", "table", "form", "list"]
  const EntityKeywords: seq<string> := ["user", "customer", "product", "order", "task", "project", "contact"]

  /** The number of keywords that occur in `lowered`. */
  function Hits(lowered: string, keywords: seq<string>): (n: nat)
    ensures n <= |keywords|
    decreases |keywords|
  {
    if keywords == [] then 0
    else
      Hits(lowered, keywords[..|keywords| - 1])
        + (if Contains(lowered, keywords[|keywords| - 1]) then 1 else 0)
  }

  /** No keyword occurs exactly when none is hit. */
  lemma {:induction false} NoHits(lowered: string, keywords: seq<string>)
    ensures Hits(lowered, keywords) == 0 <==> forall i :: 0 <= i < |keywords| ==> !Contains(lowered, keywords[i])
    decreases |keywords|
  {
    if keywords != [] {
      var init := keywords[..|keywords| - 1];
      NoHits(lowered, init);
      assert forall i :: 0 <= i < |init| ==> init[i] == keywords[i];
    }
  }

  /** `request.split(/\s+/).length` */
  function WordCount(request: string): nat {
    |SplitRuns(request)|
  }

  /** `assessComplexity`, in tenths. */
  function Complexity(request: string): (score: int)
    ensures 0 <= score <= 10
  {
    var lowered := ToLower(request);
    var words := WordCount(request);
    Min(2 * Hits(lowered, ComplexKeywords) + Hits(lowered, FeatureKeywords)
        + (if words > 50 then 2 else 0) + (if words > 100 then 2 else 0)
        + (if Hits(lowered, EntityKeywords) > 2 then 2 else 0),
        10)
  }

  /** One keyword pass of `assessComplexity`: `weight` is added for every
      keyword that occurs. */
  method AddHits(score: int, lowered: string, keywords: seq<string>, weight: int) returns (score': int)
    ensures score' == score + weight * Hits(lowered, keywords)
  {
    score' := score;
    var i := 0;
    while i < |keywords|
      invariant 0 <= i <= |keywords|
      invariant score' == score + weight * Hits(lowered, keywords[..i])
    {
      assert keywords[..i + 1][..i] == keywords[..i];
      if Contains(lowered, keywords[i]) {
        score' := score' + weight;
      }
      i := i + 1;
    }
    assert keywords[..i] == keywords;
  }

  /** The score accumulation of `assessComplexity`: one pass per keyword list,
      then the word-count and entity bonuses, then the clamp. */
  method AssessComplexity(request: string) returns (score: int)
    ensures score == Complexity(request)
  {
    var lowered := ToLower(request);
    score := AddHits(0, lowered, ComplexKeywords, 2);
    score := AddHits(score, lowered, FeatureKeywords, 1);
    var wordCount := |SplitRuns(request)|;
    if wordCount > 50 {
      score := score + 2;
    }
    if wordCount > 100 {
      score := score + 2;
    }
    var entitiesFound := AddHits(0, lowered, EntityKeywords, 1);
    if entitiesFound > 2 {
      score := score + 2;
    }
    score := Min(score, 10);
  }

  /** `selectStrategy`: retries shrink the prompt whatever the request says;
      on a first attempt the score picks the tier. */
  function SelectStrategy(request: string, retryAttempt: int): (s: PromptStrategy)
    ensures s.maxTokens == (if s.kind == Standard then 6144 else 8192)
    ensures retryAttempt >= 2 ==> s.kind == Minimal
    ensures retryAttempt == 1 ==> s.kind == Concise
    ensures retryAttempt <= 0 ==>
      s.kind == (if Complexity(request) > 7 then Minimal else if Complexity(request) > 4 then Concise else Standard)
  {
    if retryAttempt > 0 then
      if retryAttempt >= 2 then PromptStrategy(Minimal, 8192, ["core functionality only", "minimal features"])
      else PromptStrategy(Concise, 8192, ["working prototype", "essential features"])
    else
      var complexity := Complexity(request);
      if complexity > 7 then PromptStrategy(Minimal, 8192, ["core functionality", "essential features only"])
      else if complexity > 4 then PromptStrategy(Concise, 8192, ["working prototype", "key features"])
      else PromptStrategy(Standard, 6144, ["complete implementation"])
  }

  /** A short request without any keyword scores nothing and gets the
      standard prompt on its first attempt. */
  lemma PlainRequestIsStandard(request: string)
    requires WordCount(request) <= 50
    requires forall i :: 0 <= i < |ComplexKeywords| ==> !Contains(ToLower(request), ComplexKeywords[i])
    requires forall i :: 0 <= i < |FeatureKeywords| ==> !Contains(ToLower(request), FeatureKeywords[i])
    requires forall i :: 0 <= i < |EntityKeywords| ==> !Contains(ToLower(request), EntityKeywords[i])
    ensures Complexity(request) == 0
    ensures SelectStrategy(request, 0).kind == Standard
  {
    var lowered := ToLower(request);
    NoHits(lowered, ComplexKeywords);
    NoHits(lowered, FeatureKeywords);
    NoHits(lowered, EntityKeywords);
  }

  /** Three complex keywords and one feature keyword score exactly 7 tenths,
      which is not above the minimal threshold. */
  lemma SevenTenthsIsConcise(request: string)
    requires WordCount(request) <= 50
    requires Hits(ToLower(request), ComplexKeywords) == 3 && Hits(ToLower(request), FeatureKeywords) == 1
    requires Hits(ToLower(request), EntityKeywords) <= 2
    ensures Complexity(request) == 7 && SelectStrategy(request, 0).kind == Concise
  {
  }

  /** A higher score never gets a larger prompt tier on a first attempt. */
  lemma TierFollowsScore(a: string, b: string)
    requires Complexity(a) <= Complexity(b)
    ensures SelectStrategy(b, 0).kind == Standard ==> SelectStrategy(a, 0).kind == Standard
    ensures SelectStrategy(a, 0).kind == Minimal ==> SelectStrategy(b, 0).kind == Minimal
  {
  }
}
