/** `LLMProviderFactory` (backend/src/llm/factory.ts): one cached provider
    instance, reused while its lower-cased provider name equals the configured
    provider, replaced otherwise, and cleared by `reset`. */
module LlmFactory {
  import opened Wrappers
  import opened Strings
  import opened LlmBase

  /** A provider instance: the name its `getProviderName` returns and the
      configuration it was built with. */
  datatype ProviderInstance = ProviderInstance(name: string, config: LlmConfig)

  /** What `getProviderName()` returns for the provider instance the `switch`
      constructs (the files under backend/src/llm/providers). */
  function ProviderName(provider: string): (r: Option<string>)
    ensures r.Some? <==> provider in {"deepseek", "openai", "anthropic", "ollama"}
  {
    if provider == "deepseek" then Some("DeepSeek")
    else if provider == "openai" then Some("OpenAI")
    else if provider == "anthropic" then Some("Anthropic")
    else if provider == "ollama" then Some("Ollama")
    else None
  }

  /** Each constructed provider's lower-cased name is the provider it was
      constructed for, so the next lookup for that provider hits the cache. */
  lemma ProviderNameLowers(provider: string)
    requires ProviderName(provider).Some?
    ensures ToLower(ProviderName(provider).value) == provider
  {
    var name := ProviderName(provider).value;
    LowerMatches(name, provider);
  }

  lemma LowerMatches(name: string, provider: string)
    requires |name| == |provider| && forall i :: 0 <= i < |name| ==> LowerChar(name[i]) == provider[i]
    ensures ToLower(name) == provider
  {
  }

  /** The outcome of `getProvider`: the new cache and the returned instance or
      the thrown message. */
  datatype Lookup = Lookup(cache: Option<ProviderInstance>, result: Result<ProviderInstance, string>)

  predicate CacheHit(cache: Option<ProviderInstance>, config: LlmConfig) {
    cache.Some? && ToLower(cache.value.name) == config.provider
  }

  /** `getProvider` over the cached instance.  A new instance is cached before
      it is validated. */
  function GetProviderSpec(cache: Option<ProviderInstance>, config: LlmConfig): (l: Lookup)
    ensures CacheHit(cache, config) ==> l == Lookup(cache, Success(cache.value))
    ensures !CacheHit(cache, config) && ProviderName(config.provider).None? ==>
      l == Lookup(cache, Failure("Unsupported LLM provider: " + config.provider))
    ensures !CacheHit(cache, config) && ProviderName(config.provider).Some? ==>
      l.cache == Some(ProviderInstance(ProviderName(config.provider).value, config))
      && (l.result.Success? <==> ValidateConfig(config))
  {
    if CacheHit(cache, config) then Lookup(cache, Success(cache.value))
    else
      var name := ProviderName(config.provider);
      if name.None? then Lookup(cache, Failure("Unsupported LLM provider: " + config.provider))
      else
        var instance := ProviderInstance(name.value, config);
        if !ValidateConfig(config) then
          Lookup(Some(instance), Failure("Invalid configuration for provider: " + config.provider))
        else Lookup(Some(instance), Success(instance))
  }

  /** An invalid configuration throws but stays cached, and the next call for
      the same provider returns it without validating again. */
  lemma InvalidConfigStaysCached(cache: Option<ProviderInstance>, config: LlmConfig)
    requires !CacheHit(cache, config)
    requires ProviderName(config.provider).Some?
    requires !ValidateConfig(config)
    ensures GetProviderSpec(cache, config).result.Failure?
    ensures var next := GetProviderSpec(cache, config).cache;
      GetProviderSpec(next, config) == Lookup(next, Success(next.value))
  {
    ProviderNameLowers(config.provider);
  }

  /** Changing only the API key or the model never replaces the cached
      instance. */
  lemma KeyOrModelChangeKeepsInstance(cache: Option<ProviderInstance>, config: LlmConfig, apiKey: string, model: string)
    requires CacheHit(cache, config)
    ensures GetProviderSpec(cache, config.(apiKey := apiKey, model := model)) == Lookup(cache, Success(cache.value))
  {
  }

  /** A successful lookup always returns the cached instance, whose lower-cased
      name is the configured provider. */
  lemma LookupReturnsCache(cache: Option<ProviderInstance>, config: LlmConfig)
    requires GetProviderSpec(cache, config).result.Success?
    ensures var l := GetProviderSpec(cache, config);
      l.cache == Some(l.result.value) && ToLower(l.result.value.name) == config.provider
  {
    if !CacheHit(cache, config) {
      ProviderNameLowers(config.provider);
    }
  }

  /** The factory's static cache. */
  class ProviderFactory {
    var instance: Option<ProviderInstance>

    constructor()
      ensures instance.None?
    {
      instance := None;
    }

    /** `getProvider` */
    method GetProvider(config: LlmConfig) returns (r: Result<ProviderInstance, string>)
      modifies this
      ensures Lookup(instance, r) == GetProviderSpec(old(instance), config)
    {
      if instance.Some? && ToLower(instance.value.name) == config.provider {
        return Success(instance.value);
      }
      var name := ProviderName(config.provider);
      if name.None? {
        return Failure("Unsupported LLM provider: " + config.provider);
      }
      instance := Some(ProviderInstance(name.value, config));
      if !ValidateConfig(config) {
        return Failure("Invalid configuration for provider: " + config.provider);
      }
      return Success(instance.value);
    }

    /** `reset` */
    method Reset()
      modifies this
      ensures instance.None?
    {
      instance := None;
    }
  }
}
