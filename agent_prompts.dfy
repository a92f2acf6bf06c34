/** The agent-mode prompt builders (backend/src/llm/prompts/agent-mode.ts): which
    user prompt `generateAgentPrompt` picks, and what each builder takes from the
    description, the approved plan and the current code.  The long fixed
    instruction blocks are named constants; the texts around the variable parts
    are modelled exactly. */
module AgentPrompts {
  import opened Wrappers
  import opened Strings
  import opened JsValues

  // The fixed instruction blocks of the prompts, abbreviated: no property
  // depends on their wording.

  /** `AGENT_MODE_SYSTEM_PROMPT` */
  const AgentSystemPrompt: string := "[agent mode system prompt]"

  /** The requirements that follow the plan context in `AGENT_MODE_CREATE_PROMPT`. */
  const CreateInstructions: string := "\n\n[create requirements]"

  /** The rules that follow the plan line in `AGENT_MODE_CREATE_PROMPT_CONCISE`. */
  const ConciseInstructions: string := "\n\n[concise mode rules]"

  /** The rules that follow the description in `AGENT_MODE_CREATE_PROMPT_MINIMAL`. */
  const MinimalInstructions: string := "\n\n[ultra-minimal rules]"

  /** The system prompt of `generatePlanPrompt`. */
  const PlanSystemPrompt: string :=
    "You are a helpful AI assistant that creates implementation plans for web prototypes."

  /** The JSON plan format that follows the description in `AGENT_MODE_PLAN_PROMPT`. */
  const PlanFormatInstructions: string := "\n\n[plan JSON format]"

  /** A system prompt paired with a user prompt. */
  datatype Prompt = Prompt(systemPrompt: string, userPrompt: string)

  /** The embedded code length of the modify and fix prompts. */
  const CodeExcerpt: nat := 2000

  // ---------------------------------------------------------------------------
  // Template pieces over decoded plan values

  /** `${x}` in a template literal for a possibly `undefined` value. */
  function TemplateText(o: Option<Json>): (r: string)
    ensures o.None? ==> r == "undefined"
    ensures o.Some? ==> r == ToText(o.value)
  {
    if o.None? then "undefined" else ToText(o.value)
  }

  /** `${x?.join(sep)}`: `undefined` for a missing or null value, the joined
      elements for an array, and `None` (a thrown `TypeError`, as `join` is not a
      function) for any other value. */
  function JoinedText(o: Option<Json>, sep: string): (r: Option<string>)
    ensures o.None? || o.value.JNull? ==> r == Some("undefined")
    ensures o.Some? && o.value.JArr? ==> r.Some?
    ensures r.None? <==> o.Some? && !o.value.JNull? && !o.value.JArr?
  {
    if o.None? || o.value.JNull? then Some("undefined")
    else if o.value.JArr? then
      Some(Join(seq(|o.value.items|, i requires 0 <= i < |o.value.items| => ElementText(o.value.items[i])), sep))
    else None
  }

  // ---------------------------------------------------------------------------
  // The builders

  /** `AGENT_MODE_PLAN_PROMPT` with `generatePlanPrompt`'s system prompt. */
  function PlanPrompt(description: string): (p: Prompt)
    ensures p.systemPrompt == PlanSystemPrompt
    ensures StartsWith(p.userPrompt, "Analyze this request and create a detailed implementation plan:\n\n" + description)
  {
    Prompt(PlanSystemPrompt,
      "Analyze this request and create a detailed implementation plan:\n\n" + description + PlanFormatInstructions)
  }

  /** The `planContext` of the full create prompt; `None` when a plan member
      cannot be joined. */
  function CreatePlanContext(plan: Option<Json>): (r: Option<string>)
    ensures !TruthyOpt(plan) ==> r == Some("")
  {
    if !TruthyOpt(plan) then Some("")
    else
      var components := JoinedText(Field(plan.value, "components"), ", ");
      var features := JoinedText(Field(plan.value, "features"), ", ");
      if components.None? || features.None? then None
      else Some("\nBased on the approved plan:\n- Components: " + components.value
        + "\n- Features: " + features.value
        + "\n- Data Model: " + TemplateText(Field(plan.value, "dataModel")) + "\n")
  }

  /** `AGENT_MODE_CREATE_PROMPT` */
  function CreatePrompt(description: string, plan: Option<Json>): (r: Option<string>)
    ensures r.Some? <==> CreatePlanContext(plan).Some?
    ensures r.Some? ==> StartsWith(r.value, "Create a new HTML prototype based on this description:\n\n" + description + "\n")
  {
    var ctx := CreatePlanContext(plan);
    if ctx.None? then None
    else Some("Create a new HTML prototype based on this description:\n\n" + description + "\n"
      + ctx.value + CreateInstructions)
  }

  /** `AGENT_MODE_CREATE_PROMPT_CONCISE`: only the plan's components are used. */
  function ConcisePrompt(description: string, plan: Option<Json>): (r: Option<string>)
    ensures !TruthyOpt(plan) ==> r == Some("Create working HTML prototype: " + description + "\n" + ConciseInstructions)
  {
    var head := "Create working HTML prototype: " + description + "\n";
    var planContext :=
      if !TruthyOpt(plan) then Some("")
      else
        var components := JoinedText(Field(plan.value, "components"), ", ");
        if components.None? then None else Some("Plan: " + components.value);
    if planContext.None? then None
    else
      assert planContext.value == "" ==> head + planContext.value == head;
      Some(head + planContext.value + ConciseInstructions)
  }

  /** `AGENT_MODE_CREATE_PROMPT_MINIMAL`: no plan at all. */
  function MinimalPrompt(description: string): (r: string)
    ensures StartsWith(r, "Minimal viable prototype: " + description)
  {
    "Minimal viable prototype: " + description + MinimalInstructions
  }

  /** `AGENT_MODE_MODIFY_PROMPT` */
  function ModifyPrompt(description: string, currentCode: string): (r: string)
    ensures StartsWith(r, "Modify the existing prototype based on this request:\n\n" + description)
  {
    "Modify the existing prototype based on this request:\n\n" + description
      + "\n\nCurrent code:\n```html\n" + Take(currentCode, CodeExcerpt)
      + "\n```\n\nGenerate the updated code. Respond with valid JSON only."
  }

  /** `AGENT_MODE_FIX_PROMPT` */
  function FixPrompt(issue: string, currentCode: string): (r: string)
    ensures StartsWith(r, "Fix this issue in the prototype:\n\n" + issue)
  {
    "Fix this issue in the prototype:\n\n" + issue
      + "\n\nCurrent code:\n```html\n" + Take(currentCode, CodeExcerpt)
      + "\n```\n\nGenerate the fixed code. Respond with valid JSON only."
  }

  // ---------------------------------------------------------------------------
  // generateAgentPrompt

  /** The members of `context` that `generateAgentPrompt` reads; `None` is an
      absent member. */
  datatype AgentContext = AgentContext(retryAttempt: Option<int>, strategy: Option<string>, plan: Option<Json>)

  datatype PromptKind = MinimalKind | ConciseKind | CreateKind

  /** `context?.retryAttempt || 0` */
  function RetryAttemptOf(context: Option<AgentContext>): (r: int)
    ensures context.None? || context.value.retryAttempt.None? ==> r == 0
  {
    if context.Some? && context.value.retryAttempt.Some? then context.value.retryAttempt.value else 0
  }

  /** `context?.strategy || 'standard'` */
  function StrategyOf(context: Option<AgentContext>): (r: string)
    ensures r != ""
    ensures context.None? || context.value.strategy.None? ==> r == "standard"
  {
    if context.Some? && context.value.strategy.Some? && context.value.strategy.value != "" then
      context.value.strategy.value
    else "standard"
  }

  function PlanOf(context: Option<AgentContext>): Option<Json> {
    if context.Some? then context.value.plan else None
  }

  /** Which builder `generateAgentPrompt` uses: the minimal check runs first. */
  function SelectPromptKind(context: Option<AgentContext>): (k: PromptKind)
    ensures k == MinimalKind <==> StrategyOf(context) == "minimal" || RetryAttemptOf(context) >= 2
    ensures k == ConciseKind <==> !(StrategyOf(context) == "minimal" || RetryAttemptOf(context) >= 2)
                                  && (StrategyOf(context) == "concise" || RetryAttemptOf(context) >= 1)
  {
    var retryAttempt := RetryAttemptOf(context);
    var strategy := StrategyOf(context);
    if strategy == "minimal" || retryAttempt >= 2 then MinimalKind
    else if strategy == "concise" || retryAttempt >= 1 then ConciseKind
    else CreateKind
  }

  /** `generateAgentPrompt`; `None` when building the prompt throws. */
  function GenerateAgentPrompt(description: string, context: Option<AgentContext>): (r: Option<Prompt>)
    ensures r.Some? ==> r.value.systemPrompt == AgentSystemPrompt
    ensures SelectPromptKind(context) == MinimalKind ==> r == Some(Prompt(AgentSystemPrompt, MinimalPrompt(description)))
    ensures SelectPromptKind(context) == ConciseKind ==>
      && (r.None? <==> ConcisePrompt(description, PlanOf(context)).None?)
      && (r.Some? ==> r.value.userPrompt == ConcisePrompt(description, PlanOf(context)).value)
    ensures SelectPromptKind(context) == CreateKind ==>
      && (r.None? <==> CreatePrompt(description, PlanOf(context)).None?)
      && (r.Some? ==> r.value.userPrompt == CreatePrompt(description, PlanOf(context)).value)
  {
    var user :=
      match SelectPromptKind(context)
      case MinimalKind => Some(MinimalPrompt(description))
      case ConciseKind => ConcisePrompt(description, PlanOf(context))
      case CreateKind => CreatePrompt(description, PlanOf(context));
    if user.None? then None else Some(Prompt(AgentSystemPrompt, user.value))
  }

  // ---------------------------------------------------------------------------
  // Properties

  /** Without context the full create prompt without plan context is used. */
  lemma NoContextUsesCreate(description: string)
    ensures GenerateAgentPrompt(description, None)
      == Some(Prompt(AgentSystemPrompt,
           "Create a new HTML prototype based on this description:\n\n" + description + "\n" + CreateInstructions))
  {
    assert SelectPromptKind(None) == CreateKind;
  }

  /** A second retry always gets the minimal prompt, whatever the strategy. */
  lemma SecondRetryIsMinimal(description: string, strategy: Option<string>, plan: Option<Json>, retry: int)
    requires retry >= 2
    ensures GenerateAgentPrompt(description, Some(AgentContext(Some(retry), strategy, plan)))
      == Some(Prompt(AgentSystemPrompt, MinimalPrompt(description)))
  {
  }

  /** The minimal prompt ignores the plan. */
  lemma MinimalIgnoresPlan(description: string, retry: Option<int>, strategy: Option<string>, p1: Option<Json>, p2: Option<Json>)
    requires SelectPromptKind(Some(AgentContext(retry, strategy, p1))) == MinimalKind
    ensures GenerateAgentPrompt(description, Some(AgentContext(retry, strategy, p1)))
         == GenerateAgentPrompt(description, Some(AgentContext(retry, strategy, p2)))
  {
  }

  /** The concise prompt reads only the plan's components. */
  lemma ConciseReadsOnlyComponents(description: string, p1: Json, p2: Json)
    requires Truthy(p1) && Truthy(p2)
    requires Field(p1, "components") == Field(p2, "components")
    ensures ConcisePrompt(description, Some(p1)) == ConcisePrompt(description, Some(p2))
  {
  }

  /** The create prompt reads only components, features and dataModel. */
  lemma CreateReadsPlanMembers(description: string, p1: Json, p2: Json)
    requires Truthy(p1) && Truthy(p2)
    requires Field(p1, "components") == Field(p2, "components")
    requires Field(p1, "features") == Field(p2, "features")
    requires Field(p1, "dataModel") == Field(p2, "dataModel")
    ensures CreatePrompt(description, Some(p1)) == CreatePrompt(description, Some(p2))
  {
  }

  /** A falsy plan adds nothing to any builder. */
  lemma FalsyPlanAddsNothing(description: string, plan: Option<Json>)
    requires !TruthyOpt(plan)
    ensures CreatePrompt(description, plan) == CreatePrompt(description, None)
    ensures ConcisePrompt(description, plan) == ConcisePrompt(description, None)
  {
  }

  /** A plan whose components are a list of texts yields a concise prompt
      naming them. */
  lemma ConciseListsComponents(description: string, plan: Json, items: seq<Json>, names: seq<string>)
    requires Truthy(plan)
    requires Field(plan, "components") == Some(JArr(items))
    requires |items| == |names| && forall i :: 0 <= i < |items| ==> items[i] == JStr(names[i])
    ensures ConcisePrompt(description, Some(plan))
      == Some("Create working HTML prototype: " + description + "\n" + "Plan: " + Join(names, ", ") + ConciseInstructions)
  {
    TextElements(items, names);
    var joined := Join(names, ", ");
    assert JoinedText(Field(plan, "components"), ", ") == Some(joined);
    var head := "Create working HTML prototype: " + description + "\n";
    assert head + ("Plan: " + joined) == head + "Plan: " + joined;
  }

  /** Text elements render as themselves inside `join`. */
  lemma TextElements(items: seq<Json>, names: seq<string>)
    requires |items| == |names| && forall i :: 0 <= i < |items| ==> items[i] == JStr(names[i])
    ensures seq(|items|, i requires 0 <= i < |items| => ElementText(items[i])) == names
  {
    var texts := seq(|items|, i requires 0 <= i < |items| => ElementText(items[i]));
    forall i | 0 <= i < |items| ensures texts[i] == names[i] {
      assert ElementText(JStr(names[i])) == names[i];
    }
  }

  /** The modify and fix prompts depend on the code only through its first 2000
      characters, and embed shorter code whole. */
  lemma CodeExcerptOnly(description: string, c1: string, c2: string)
    requires Take(c1, CodeExcerpt) == Take(c2, CodeExcerpt)
    ensures ModifyPrompt(description, c1) == ModifyPrompt(description, c2)
    ensures FixPrompt(description, c1) == FixPrompt(description, c2)
  {
  }

  lemma ShortCodeEmbeddedWhole(description: string, code: string)
    requires |code| <= CodeExcerpt
    ensures ModifyPrompt(description, code)
      == "Modify the existing prototype based on this request:\n\n" + description
         + "\n\nCurrent code:\n```html\n" + code + "\n```\n\nGenerate the updated code. Respond with valid JSON only."
  {
  }
}
