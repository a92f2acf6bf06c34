/** `ErrorMessageMapper` (backend/src/utils/error-message-mapper.ts): the
    user-facing text for an error, chosen by the first group of substrings the
    lower-cased message contains, and the suggestions of every group it
    contains. */
module ErrorMessages {
  import opened Wrappers
  import opened Strings

  datatype ErrorGroup = TimedOut | RateLimited | NetworkLost | ParseFailed | TooLarge | AuthFailed | Unavailable

  /** The groups in the order `getUserFriendlyMessage` tests them. */
  const MessageOrder: seq<ErrorGroup> := [TimedOut, RateLimited, NetworkLost, ParseFailed, TooLarge, AuthFailed, Unavailable]

  /** The substrings that put a message in a group. */
  function MessageNeedles(g: ErrorGroup): seq<string> {
    match g
    case TimedOut => ["timeout", "econnreset", "etimedout"]
    case RateLimited => ["rate limit", "429"]
    case NetworkLost => ["network", "enotfound", "econnrefused"]
    case ParseFailed => ["parse", "json"]
    case TooLarge => ["token", "length", "too long"]
    case AuthFailed => ["401", "unauthorized", "api key"]
    case Unavailable => ["503", "service unavailable"]
  }

  predicate InGroup(lowered: string, g: ErrorGroup) {
    ContainsAny(lowered, MessageNeedles(g))
  }

  /** The position of a group in `MessageOrder`. */
  function Rank(g: ErrorGroup): (k: nat)
    ensures k < |MessageOrder| && MessageOrder[k] == g
  {
    match g
    case TimedOut => 0
    case RateLimited => 1
    case NetworkLost => 2
    case ParseFailed => 3
    case TooLarge => 4
    case AuthFailed => 5
    case Unavailable => 6
  }

  /** The if-chain of `getUserFriendlyMessage`: the group tried first whose
      substrings occur, or none. */
  function Classify(lowered: string): (r: Option<ErrorGroup>)
    ensures r.Some? ==> InGroup(lowered, r.value)
  {
    if InGroup(lowered, TimedOut) then Some(TimedOut)
    else if InGroup(lowered, RateLimited) then Some(RateLimited)
    else if InGroup(lowered, NetworkLost) then Some(NetworkLost)
    else if InGroup(lowered, ParseFailed) then Some(ParseFailed)
    else if InGroup(lowered, TooLarge) then Some(TooLarge)
    else if InGroup(lowered, AuthFailed) then Some(AuthFailed)
    else if InGroup(lowered, Unavailable) then Some(Unavailable)
    else None
  }

  /** The chosen group is the earliest in `MessageOrder` that matches, and
      there is none exactly when no group matches. */
  lemma ClassifyIsFirstMatch(lowered: string)
    ensures Classify(lowered).None? <==> forall k :: 0 <= k < |MessageOrder| ==> !InGroup(lowered, MessageOrder[k])
    ensures Classify(lowered).Some? ==> forall j :: 0 <= j < Rank(Classify(lowered).value) ==> !InGroup(lowered, MessageOrder[j])
  {
    var r := Classify(lowered);
    if r.None? {
      forall k | 0 <= k < |MessageOrder|
        ensures !InGroup(lowered, MessageOrder[k])
      {
        assert MessageOrder[k] in {TimedOut, RateLimited, NetworkLost, ParseFailed, TooLarge, AuthFailed, Unavailable};
      }
    } else {
      assert InGroup(lowered, MessageOrder[Rank(r.value)]);
      forall j | 0 <= j < Rank(r.value)
        ensures !InGroup(lowered, MessageOrder[j])
      {
        assert j < 7;
      }
    }
  }

  /** The `context` of `getUserFriendlyMessage`; `None` is an absent member. */
  datatype RetryContext = RetryContext(retryAttempt: Option<int>, maxRetries: Option<int>)

  /** `${n}` of a number that may be undefined. */
  function NumberText(n: Option<int>): string {
    if n.Some? then IntToString(n.value) else "undefined"
  }

  /** The "retrying" text needs a non-zero attempt below a present maximum. */
  predicate StillRetrying(context: RetryContext) {
    context.retryAttempt.Some? && context.retryAttempt.value != 0
    && context.maxRetries.Some? && context.retryAttempt.value < context.maxRetries.value
  }

  const RetryingHead := "⚠️ Generation took too long. Retrying with optimized settings (attempt "
  const RetryingTail := ")..."
  const TimedOutHead := "❌ Generation timed out after "
  const TimedOutTail := " attempts. Try simplifying your request or breaking it into smaller parts."

  function TimeoutText(context: RetryContext): string {
    if StillRetrying(context) then
      RetryingHead + IntToString(context.retryAttempt.value + 1) + "/" + NumberText(context.maxRetries) + RetryingTail
    else
      TimedOutHead + NumberText(context.maxRetries) + TimedOutTail
  }

  function GroupText(g: ErrorGroup, context: RetryContext): string {
    match g
    case TimedOut => TimeoutText(context)
    case RateLimited => "⏸️ API rate limit reached. Waiting before retry..."
    case NetworkLost => "🌐 Connection lost. Retrying..."
    case ParseFailed => "⚠️ Received incomplete response. Using partial results. You may want to regenerate for complete code."
    case TooLarge => "📏 Response too large. Try requesting a simpler version or specific features."
    case AuthFailed => "🔑 API authentication failed. Please check your API key configuration."
    case Unavailable => "🔧 LLM service temporarily unavailable. Retrying..."
  }

  const GenericHead := "❌ Generation failed: "
  const GenericTail := ". Please try again or simplify your request."

  /** `getUserFriendlyMessage` */
  function UserFriendlyMessage(message: string, context: RetryContext): (r: string)
  {
    match Classify(ToLower(message))
    case Some(g) => GroupText(g, context)
    case None => GenericHead + message + GenericTail
  }

  /** A message in several groups gets the text of the earliest one only. */
  lemma EarliestGroupWins(message: string, context: RetryContext, g: ErrorGroup)
    requires InGroup(ToLower(message), g)
    ensures Classify(ToLower(message)).Some?
    ensures var c := Classify(ToLower(message)).value;
      Rank(c) <= Rank(g) && UserFriendlyMessage(message, context) == GroupText(c, context)
  {
    var lowered := ToLower(message);
    ClassifyIsFirstMatch(lowered);
    var c := Classify(lowered).value;
    var k := Rank(g);
    var earlier := MessageOrder[k];
    assert k < Rank(c) ==> !InGroup(lowered, earlier);
    ClassifiedText(message, context);
  }

  /** A classified message gets its group's text. */
  lemma ClassifiedText(message: string, context: RetryContext)
    requires Classify(ToLower(message)).Some?
    ensures UserFriendlyMessage(message, context) == GroupText(Classify(ToLower(message)).value, context)
  {
  }

  /** An unclassified error quotes its original message, case intact. */
  lemma GenericQuotesMessage(message: string, context: RetryContext)
    requires forall k :: 0 <= k < |MessageOrder| ==> !InGroup(ToLower(message), MessageOrder[k])
    ensures UserFriendlyMessage(message, context) == GenericHead + message + GenericTail
    ensures Contains(UserFriendlyMessage(message, context), message)
  {
    ClassifyIsFirstMatch(ToLower(message));
    var r := GenericHead + message + GenericTail;
    assert r[|GenericHead|..|GenericHead| + |message|] == message;
    ContainsWitness(r, message, |GenericHead|);
  }

  /** A timeout is reported before any other group: as a retry, numbered
      from one, while attempts remain, else as final. */
  lemma TimeoutMessages(message: string, context: RetryContext)
    requires InGroup(ToLower(message), TimedOut)
    ensures StillRetrying(context) ==>
      UserFriendlyMessage(message, context)
        == RetryingHead + IntToString(context.retryAttempt.value + 1) + "/" + IntToString(context.maxRetries.value) + RetryingTail
    ensures !StillRetrying(context) ==>
      UserFriendlyMessage(message, context) == TimedOutHead + NumberText(context.maxRetries) + TimedOutTail
  {
  }

  /** The first retry of three is announced as attempt 2/3; a first try
      (attempt 0) is never announced as a retry. */
  lemma RetryNumbering()
    ensures TimeoutText(RetryContext(Some(1), Some(3))) == RetryingHead + "2/3" + RetryingTail
    ensures TimeoutText(RetryContext(Some(0), Some(3))) == TimedOutHead + "3" + TimedOutTail
  {
    assert NatToString(2) == "2" && NatToString(3) == "3";
  }

  // ---------------------------------------------------------------------------
  // getSuggestions

  /** A group of `getSuggestions`: the substrings that select it and the
      suggestions it adds. */
  datatype SuggestionGroup = SuggestionGroup(needles: seq<string>, suggestions: seq<string>)

  /** The five groups, in the order they are tried. */
  const SuggestionGroups: seq<SuggestionGroup> := [
    SuggestionGroup(["timeout", "length", "too long"],
      ["Try requesting a simpler version", "Break your request into smaller parts", "Focus on core features first"]),
    SuggestionGroup(["parse", "json"],
      ["Click \"Try Again\" to regenerate", "The partial code may still be usable"]),
    SuggestionGroup(["rate limit", "429"],
      ["Wait a moment and try again", "Consider upgrading your API plan"]),
    SuggestionGroup(["network", "enotfound"],
      ["Check your internet connection", "Verify the API endpoint is accessible"]),
    SuggestionGroup(["401", "api key"],
      ["Verify your API key in .env file", "Check if your API key has expired"])
  ]

  /** The suggestions of every group the message falls in, group by group. */
  function Collected(lowered: string, groups: seq<SuggestionGroup>): (r: seq<string>)
    decreases |groups|
  {
    if groups == [] then []
    else
      var last := groups[|groups| - 1];
      Collected(lowered, groups[..|groups| - 1]) + (if ContainsAny(lowered, last.needles) then last.suggestions else [])
  }

  /** A message in no group gets no suggestions. */
  lemma {:induction false} NothingCollected(lowered: string, groups: seq<SuggestionGroup>)
    requires forall g :: 0 <= g < |groups| ==> !ContainsAny(lowered, groups[g].needles)
    ensures Collected(lowered, groups) == []
    decreases |groups|
  {
    if groups != [] {
      NothingCollected(lowered, groups[..|groups| - 1]);
    }
  }

  /** Every suggestion comes from a group the message falls in. */
  lemma {:induction false} CollectedFromMatchingGroups(lowered: string, groups: seq<SuggestionGroup>, s: string)
    requires s in Collected(lowered, groups)
    ensures exists g :: 0 <= g < |groups| && ContainsAny(lowered, groups[g].needles) && s in groups[g].suggestions
    decreases |groups|
  {
    var init := groups[..|groups| - 1];
    var last := groups[|groups| - 1];
    if s in Collected(lowered, init) {
      CollectedFromMatchingGroups(lowered, init, s);
      var g :| 0 <= g < |init| && ContainsAny(lowered, init[g].needles) && s in init[g].suggestions;
      assert groups[g] == init[g];
    } else {
      assert ContainsAny(lowered, last.needles) && s in last.suggestions;
    }
  }

  /** The suggestions of the groups the message falls in, appended in group
      order. */
  function Suggestions(message: string): seq<string> {
    Collected(ToLower(message), SuggestionGroups)
  }

  /** `Collected` over the five groups, unfolded one group at a time. */
  lemma CollectedFive(lowered: string)
    ensures Collected(lowered, SuggestionGroups)
      == Collected(lowered, SuggestionGroups[..4])
         + (if ContainsAny(lowered, SuggestionGroups[4].needles) then SuggestionGroups[4].suggestions else [])
    ensures Collected(lowered, SuggestionGroups[..4])
      == Collected(lowered, SuggestionGroups[..3])
         + (if ContainsAny(lowered, SuggestionGroups[3].needles) then SuggestionGroups[3].suggestions else [])
    ensures Collected(lowered, SuggestionGroups[..3])
      == Collected(lowered, SuggestionGroups[..2])
         + (if ContainsAny(lowered, SuggestionGroups[2].needles) then SuggestionGroups[2].suggestions else [])
    ensures Collected(lowered, SuggestionGroups[..2])
      == Collected(lowered, SuggestionGroups[..1])
         + (if ContainsAny(lowered, SuggestionGroups[1].needles) then SuggestionGroups[1].suggestions else [])
    ensures Collected(lowered, SuggestionGroups[..1])
      == (if ContainsAny(lowered, SuggestionGroups[0].needles) then SuggestionGroups[0].suggestions else [])
  {
    assert SuggestionGroups[..5] == SuggestionGroups;
    assert SuggestionGroups[..5][..4] == SuggestionGroups[..4];
    assert SuggestionGroups[..4][..3] == SuggestionGroups[..3];
    assert SuggestionGroups[..3][..2] == SuggestionGroups[..2];
    assert SuggestionGroups[..2][..1] == SuggestionGroups[..1];
    assert SuggestionGroups[..1][..0] == [];
  }

  /** The five tests in turn, each appending its group's suggestions. */
  method GetSuggestions(message: string) returns (suggestions: seq<string>)
    ensures suggestions == Suggestions(message)
  {
    var lowered := ToLower(message);
    suggestions := [];
    if ContainsAny(lowered, SuggestionGroups[0].needles) {
      suggestions := suggestions + SuggestionGroups[0].suggestions;
    }
    assert suggestions == FirstGroups(lowered, 1);
    if ContainsAny(lowered, SuggestionGroups[1].needles) {
      suggestions := suggestions + SuggestionGroups[1].suggestions;
    }
    assert suggestions == FirstGroups(lowered, 2);
    if ContainsAny(lowered, SuggestionGroups[2].needles) {
      suggestions := suggestions + SuggestionGroups[2].suggestions;
    }
    assert suggestions == FirstGroups(lowered, 3);
    if ContainsAny(lowered, SuggestionGroups[3].needles) {
      suggestions := suggestions + SuggestionGroups[3].suggestions;
    }
    assert suggestions == FirstGroups(lowered, 4);
    if ContainsAny(lowered, SuggestionGroups[4].needles) {
      suggestions := suggestions + SuggestionGroups[4].suggestions;
    }
    assert suggestions == FirstGroups(lowered, 5);
    FirstGroupsCollected(lowered, 5);
    assert SuggestionGroups[..5] == SuggestionGroups;
  }

  /** `Collected` over the first `n` groups, counted from the front. */
  function FirstGroups(lowered: string, n: nat): seq<string>
    requires n <= |SuggestionGroups|
  {
    if n == 0 then []
    else
      FirstGroups(lowered, n - 1)
      + (if ContainsAny(lowered, SuggestionGroups[n - 1].needles) then SuggestionGroups[n - 1].suggestions else [])
  }

  lemma {:induction false} FirstGroupsCollected(lowered: string, n: nat)
    requires n <= |SuggestionGroups|
    ensures FirstGroups(lowered, n) == Collected(lowered, SuggestionGroups[..n])
  {
    if n > 0 {
      FirstGroupsCollected(lowered, n - 1);
      assert SuggestionGroups[..n][..n - 1] == SuggestionGroups[..n - 1];
    }
  }

  /** `ContainsAny` over a list of two or three needles is the disjunction of
      the individual tests. */
  lemma Spelled(lowered: string, needles: seq<string>)
    requires 2 <= |needles| <= 3
    ensures |needles| == 2 ==> (ContainsAny(lowered, needles) <==> Contains(lowered, needles[0]) || Contains(lowered, needles[1]))
    ensures |needles| == 3 ==> (ContainsAny(lowered, needles)
      <==> Contains(lowered, needles[0]) || Contains(lowered, needles[1]) || Contains(lowered, needles[2]))
  {
    var rest := needles[1..];
    assert ContainsAny(lowered, needles) == (Contains(lowered, needles[0]) || ContainsAny(lowered, rest));
    assert rest[0] == needles[1];
    var last := rest[1..];
    assert ContainsAny(lowered, rest) == (Contains(lowered, needles[1]) || ContainsAny(lowered, last));
    if |needles| == 3 {
      assert last[0] == needles[2] && last[1..] == [];
      assert ContainsAny(lowered, last) == (Contains(lowered, needles[2]) || ContainsAny(lowered, last[1..]));
    } else {
      assert last == [];
    }
  }

  /** A message that falls in the size and parse groups but in no other
      gets the three size suggestions, then the two parse suggestions. */
  lemma SuggestionsAccumulate(lowered: string)
    requires ContainsAny(lowered, SuggestionGroups[0].needles) && ContainsAny(lowered, SuggestionGroups[1].needles)
    requires forall g :: 2 <= g < |SuggestionGroups| ==> !ContainsAny(lowered, SuggestionGroups[g].needles)
    ensures Collected(lowered, SuggestionGroups) == SuggestionGroups[0].suggestions + SuggestionGroups[1].suggestions
  {
    CollectedFive(lowered);
  }
}
