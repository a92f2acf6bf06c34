/** The LLM request and configuration shapes (shared/src/types/llm.ts) and the
    two helpers every provider inherits from `BaseLLMProvider`
    (backend/src/llm/base.ts): configuration validation and filling in request
    defaults. */
module LlmBase {
  import opened Wrappers

  datatype LlmRole = SystemRole | UserRole | AssistantRole

  datatype LlmMessage = LlmMessage(role: LlmRole, content: string)

  /** `LLMRequest`: every member but `messages` is optional. */
  datatype LlmRequest = LlmRequest(
    messages: seq<LlmMessage>,
    temperature: Option<real>,
    maxTokens: Option<int>,
    topP: Option<real>,
    stream: Option<bool>,
    stop: Option<seq<string>>)

  /** `LLMConfig`; `provider` is one of 'deepseek', 'openai', 'anthropic',
      'ollama' or 'custom'. */
  datatype LlmConfig = LlmConfig(
    provider: string,
    apiKey: string,
    model: string,
    baseUrl: Option<string>,
    defaultTemperature: Option<real>,
    defaultMaxTokens: Option<int>)

  const DefaultTemperature: real := 0.7
  const DefaultMaxTokens: int := 4000

  /** A request with only messages, as the services send it. */
  function MessagesOnly(messages: seq<LlmMessage>, maxTokens: Option<int>): (r: LlmRequest)
    ensures r.messages == messages && r.maxTokens == maxTokens && r.temperature.None?
  {
    LlmRequest(messages, None, maxTokens, None, None, None)
  }

  /** `validateConfig`: an API key is needed except for Ollama, and a model
      always. */
  function ValidateConfig(config: LlmConfig): (ok: bool)
    ensures ok <==> (config.apiKey != "" || config.provider == "ollama") && config.model != ""
  {
    if config.apiKey == "" && config.provider != "ollama" then false
    else if config.model == "" then false
    else true
  }

  /** `mergeWithDefaults`: the request's own temperature and token limit win,
      then the configured defaults, then 0.7 and 4000.  Only `null`/`undefined`
      fall through, so an explicit 0 is kept. */
  function MergeWithDefaults(config: LlmConfig, request: LlmRequest): (r: LlmRequest)
    ensures r.messages == request.messages && r.topP == request.topP
      && r.stream == request.stream && r.stop == request.stop
    ensures r.temperature.Some? && r.maxTokens.Some?
    ensures request.temperature.Some? ==> r.temperature == request.temperature
    ensures request.temperature.None? ==>
      r.temperature == Some(if config.defaultTemperature.Some? then config.defaultTemperature.value else DefaultTemperature)
    ensures request.maxTokens.Some? ==> r.maxTokens == request.maxTokens
    ensures request.maxTokens.None? ==>
      r.maxTokens == Some(if config.defaultMaxTokens.Some? then config.defaultMaxTokens.value else DefaultMaxTokens)
  {
    request.(
      temperature := Some(request.temperature.GetOr(config.defaultTemperature.GetOr(DefaultTemperature))),
      maxTokens := Some(request.maxTokens.GetOr(config.defaultMaxTokens.GetOr(DefaultMaxTokens))))
  }

  /** Merging twice changes nothing more. */
  lemma MergeIdempotent(config: LlmConfig, request: LlmRequest)
    ensures MergeWithDefaults(config, MergeWithDefaults(config, request)) == MergeWithDefaults(config, request)
  {
  }
}
