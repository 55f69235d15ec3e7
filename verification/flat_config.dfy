/**
 * The configuration of the `io.github.llmkit` generation.  Its
 * `BaseModelConfig`/`ChatConfig` pair has the same fields, defaults and
 * normalisation as the other generation's, so the `ChatConfig` class of
 * `PipelineConfig` is used for both; only `toString` differs, by printing
 * the runtime class name as its head (`ToStringAs`).  This module adds
 * `AbstractChatConfigBuilder`, which wraps one configuration object.
 */
module FlatConfig {
  import opened Wrappers
  import opened JavaText
  import opened Json
  import opened PipelineStrings
  import opened PipelineConfig
  import opened FlatErrors

  class ConfigBuilder {
    const config: ChatConfig

    constructor (c: ChatConfig)
      ensures config == c
    {
      config := c;
    }

    method ApiKey(k: JString) returns (b: ConfigBuilder)
      modifies config`apiKey
      ensures b == this && config.apiKey == k
    {
      config.SetApiKey(k);
      b := this;
    }

    method Provider(p: JString) returns (b: ConfigBuilder)
      modifies config`provider
      ensures b == this && config.provider == p
    {
      config.SetProvider(p);
      b := this;
    }

    method Endpoint(e: JString) returns (b: ConfigBuilder)
      modifies config`endpoint
      ensures b == this && config.endpoint == NormalizeEndpoint(e)
    {
      config.SetEndpoint(e);
      b := this;
    }

    method RequestPath(p: JString) returns (b: ConfigBuilder)
      modifies config`requestPath
      ensures b == this && config.requestPath == NormalizePath(p)
    {
      config.SetRequestPath(p);
      b := this;
    }

    method Model(m: JString) returns (b: ConfigBuilder)
      modifies config`model
      ensures b == this
      ensures m.None? ==> config.model.None?
      ensures m.Some? ==> config.model == Some(Trim(m.value))
    {
      config.SetModel(m);
      b := this;
    }

    method LogEnabled(x: bool) returns (b: ConfigBuilder)
      modifies config`logEnabled
      ensures b == this && config.logEnabled == x
    {
      config.SetLogEnabled(x);
      b := this;
    }

    method RetryEnabled(x: bool) returns (b: ConfigBuilder)
      modifies config`retryEnabled
      ensures b == this && config.retryEnabled == x
    {
      config.SetRetryEnabled(x);
      b := this;
    }

    method RetryCount(n: int) returns (b: ConfigBuilder)
      modifies config`retryCount
      ensures b == this && config.retryCount == n
    {
      config.SetRetryCount(n);
      b := this;
    }

    /** `retryDelayMs(n)` writes the configuration's `retryInitialDelayMs`. */
    method RetryDelayMs(n: int) returns (b: ConfigBuilder)
      modifies config`retryInitialDelayMs
      ensures b == this && config.retryInitialDelayMs == n
    {
      config.SetRetryInitialDelayMs(n);
      b := this;
    }

    /** `customProperty(k, v)`: entries accumulate in the configuration's map. */
    method CustomProperty(k: string, v: Json) returns (b: ConfigBuilder)
      modifies config`customProperties
      ensures b == this
      ensures config.customProperties == Some(old(config.customProperties).GetOr(map[])[k := v])
    {
      config.PutCustomProperty(k, v);
      b := this;
    }

    method CustomProperties(m: Option<map<string, Json>>) returns (b: ConfigBuilder)
      modifies config`customProperties
      ensures b == this && config.customProperties == m
    {
      config.SetCustomProperties(m);
      b := this;
    }

    /** `validate`: a configuration whose API key has no text is refused. */
    method Validate() returns (r: Outcome<(), Failure>)
      ensures r.Threw? <==> NoText(config.apiKey)
      ensures r.Threw? ==> r.error == MissingField("apiKey")
    {
      if NoText(config.apiKey) {
        return Threw(MissingField("apiKey"));
      }
      return Returned(());
    }

    /** `build`: the very configuration object the builder wraps, once it validates. */
    method Build() returns (r: Outcome<ChatConfig, Failure>)
      ensures r.Threw? <==> NoText(config.apiKey)
      ensures r.Threw? ==> r.error == MissingField("apiKey")
      ensures r.Returned? ==> r.value == config
    {
      var v := Validate();
      if v.Threw? {
        return Threw(v.error);
      }
      return Returned(config);
    }
  }

  /** Two `customProperty` calls leave both entries, the later winning on a shared key. */
  method CustomPropertiesAccumulate() returns (props: Option<map<string, Json>>)
    ensures props == Some(map["region" := JString("eu"), "tier" := JInt(2)])
  {
    var c := new ChatConfig();
    var b := new ConfigBuilder(c);
    b := b.CustomProperty("region", JString("us"));
    b := b.CustomProperty("tier", JInt(2));
    b := b.CustomProperty("region", JString("eu"));
    props := c.customProperties;
    assert map[]["region" := JString("us")]["tier" := JInt(2)]["region" := JString("eu")]
      == map["region" := JString("eu"), "tier" := JInt(2)];
  }

  /** A key of spaces is refused and a real key accepted, with the same object returned. */
  method BuildChecksApiKey() returns (refused: Outcome<ChatConfig, Failure>, accepted: Outcome<ChatConfig, Failure>, c: ChatConfig)
    ensures refused.Threw? && refused.error.Configuration?
    ensures accepted == Returned(c)
  {
    c := new ChatConfig();
    var b := new ConfigBuilder(c);
    b := b.ApiKey(Some("   "));
    refused := b.Build();
    b := b.ApiKey(Some("sk-1"));
    assert !IsTrimmed('s');
    accepted := b.Build();
  }
}
