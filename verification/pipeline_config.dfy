/**
 * Options and configuration of the `me.maydeng.llmkit` generation:
 * `ChatOptions`, and `ChatConfig` with the fields it inherits from
 * `BaseModelConfig`.
 */
module PipelineConfig {
  import opened Wrappers
  import opened JavaText
  import opened Json
  import opened PipelineStrings

  /** `0.5f` as an IEEE 754 single. */
  const DefaultTemperature: Decimal := FloatBits(0x3F00_0000)

  /** The values of a `ChatOptions` at one moment; a `None` field is a Java null. */
  datatype Options = Options(
    retryEnabled: Option<bool>,
    retryCount: Option<int>,
    retryInitialDelayMs: Option<int>,
    model: JString,
    temperature: Option<Decimal>,
    maxTokens: Option<int>,
    includeUsage: Option<bool>,
    extra: Option<map<string, Json>>,
    streaming: bool)
  {
    /** `getModelOrDefault`: the model when it has text (so a blank model gives the default). */
    function ModelOrDefault(default: JString): (r: JString)
      ensures HasText(model) ==> r == model
      ensures !HasText(model) ==> r == default
    {
      if HasText(model) then model else default
    }

    function IncludeUsageOrDefault(default: bool): (r: bool)
      ensures includeUsage.Some? ==> r == includeUsage.value
      ensures includeUsage.None? ==> r == default
    {
      includeUsage.GetOr(default)
    }

    function RetryEnabledOrDefault(default: bool): (r: bool)
      ensures retryEnabled.Some? ==> r == retryEnabled.value
      ensures retryEnabled.None? ==> r == default
    {
      retryEnabled.GetOr(default)
    }

    function RetryCountOrDefault(default: int): (r: int)
      ensures retryCount.Some? ==> r == retryCount.value
      ensures retryCount.None? ==> r == default
    {
      retryCount.GetOr(default)
    }

    function RetryInitialDelayMsOrDefault(default: int): (r: int)
      ensures retryInitialDelayMs.Some? ==> r == retryInitialDelayMs.value
      ensures retryInitialDelayMs.None? ==> r == default
    {
      retryInitialDelayMs.GetOr(default)
    }
  }

  /** The values of `new ChatOptions()`: temperature 0.5, not streaming, every other field null. */
  const DefaultOptions: Options := Options(None, None, None, None, Some(DefaultTemperature), None, None, None, false)

  /** A whitespace-only model is no model: the default wins. */
  lemma BlankModelGivesDefault(o: Options, blank: string, default: JString)
    requires o.model == Some(blank) && forall i :: 0 <= i < |blank| ==> IsTrimmed(blank[i])
    ensures o.ModelOrDefault(default) == default
  {
  }

  class ChatOptions {
    var retryEnabled: Option<bool>
    var retryCount: Option<int>
    var retryInitialDelayMs: Option<int>
    var model: JString
    var temperature: Option<Decimal>
    var maxTokens: Option<int>
    var includeUsage: Option<bool>
    var extra: Option<map<string, Json>>
    var streaming: bool

    function Value(): Options
      reads this
    {
      Options(retryEnabled, retryCount, retryInitialDelayMs, model, temperature, maxTokens, includeUsage, extra, streaming)
    }

    /** `new ChatOptions()`: temperature 0.5, not streaming, every other field null. */
    constructor ()
      ensures Value() == DefaultOptions
    {
      retryEnabled, retryCount, retryInitialDelayMs := None, None, None;
      model, temperature, maxTokens, includeUsage, extra := None, Some(DefaultTemperature), None, None, None;
      streaming := false;
    }

    method SetModel(m: JString)
      modifies this`model
      ensures model == m
    {
      model := m;
    }

    method SetTemperature(t: Option<Decimal>)
      modifies this`temperature
      ensures temperature == t
    {
      temperature := t;
    }

    method SetMaxTokens(n: Option<int>)
      modifies this`maxTokens
      ensures maxTokens == n
    {
      maxTokens := n;
    }

    method SetIncludeUsage(b: Option<bool>)
      modifies this`includeUsage
      ensures includeUsage == b
    {
      includeUsage := b;
    }

    method SetExtra(e: Option<map<string, Json>>)
      modifies this`extra
      ensures extra == e
    {
      extra := e;
    }

    method SetStreaming(s: bool)
      modifies this`streaming
      ensures Value() == old(Value()).(streaming := s)
    {
      streaming := s;
    }

    method SetRetryEnabled(b: Option<bool>)
      modifies this`retryEnabled
      ensures retryEnabled == b
    {
      retryEnabled := b;
    }

    method SetRetryCount(n: Option<int>)
      modifies this`retryCount
      ensures retryCount == n
    {
      retryCount := n;
    }

    method SetRetryInitialDelayMs(n: Option<int>)
      modifies this`retryInitialDelayMs
      ensures retryInitialDelayMs == n
    {
      retryInitialDelayMs := n;
    }
  }

  /** `setEndpoint`: exactly one trailing "/" is removed; null stays null. */
  function NormalizeEndpoint(e: JString): (r: JString)
    ensures e.None? <==> r.None?
    ensures e.Some? && EndsWith(e.value, "/") ==> r.value + "/" == e.value
    ensures e.Some? && !EndsWith(e.value, "/") ==> r == e
  {
    if e.Some? && EndsWith(e.value, "/") then Some(e.value[..|e.value| - 1]) else e
  }

  /** `setRequestPath`: a leading "/" is added when missing; null stays null. */
  function NormalizePath(p: JString): (r: JString)
    ensures p.None? <==> r.None?
    ensures r.Some? ==> StartsWith(r.value, "/")
    ensures p.Some? && StartsWith(p.value, "/") ==> r == p
    ensures p.Some? && !StartsWith(p.value, "/") ==> r.value == "/" + p.value
  {
    if p.Some? && !StartsWith(p.value, "/") then Some("/" + p.value) else p
  }

  /** Setting the same path twice is the same as setting it once. */
  lemma NormalizePathIdempotent(p: JString)
    ensures NormalizePath(NormalizePath(p)) == NormalizePath(p)
  {
  }

  /** Only one slash goes: an endpoint ending in "//" keeps one. */
  lemma NormalizeEndpointStripsOne()
    ensures NormalizeEndpoint(Some("https://h//")) == Some("https://h/")
  {
    var e := "https://h//";
    assert e[|e| - 1..] == "/";
    assert e[..|e| - 1] == "https://h/";
  }

  /**
   * Endpoint and path meet at exactly one "/" whenever the endpoint does not
   * end in "//" and the path does not start with "//".
   */
  lemma UrlJoinHasOneSlash(e: string, p: string)
    requires !EndsWith(e, "//") && !StartsWith(p, "//")
    ensures var base := OrEmpty(NormalizeEndpoint(Some(e)));
      var path := OrEmpty(NormalizePath(Some(p)));
      && !EndsWith(base, "/")
      && path[0] == '/' && (|path| == 1 || path[1] != '/')
  {
    var path := OrEmpty(NormalizePath(Some(p)));
    if StartsWith(p, "/") {
      assert path == p;
      if |p| > 1 {
        assert p[..2] != "//";
      }
    } else {
      assert path == "/" + p;
      if |p| > 0 {
        assert p[..1] != "/";
      }
    }
    if EndsWith(e, "/") {
      var base := e[..|e| - 1];
      if |base| > 0 {
        assert e[|e| - 2..] == [base[|base| - 1], '/'];
        assert base[|base| - 1..] == [base[|base| - 1]];
      }
    }
  }

  /** The six fields `BaseModelConfig.equals` compares. */
  datatype BaseFields = BaseFields(
    provider: JString, endpoint: JString, requestPath: JString,
    model: JString, apiKey: JString, customProperties: Option<map<string, Json>>)

  /**
   * `toString` of the configuration, headed by `className`: every field but
   * the API key, which is shown as `[REDACTED]`.  A non-null
   * custom-property map is rendered as `{...}`.
   */
  function Describe(className: string, provider: JString, endpoint: JString, requestPath: JString, model: JString,
                    customProperties: Option<map<string, Json>>): string
  {
    className + "{provider='" + Show(provider) + "', endpoint='" + Show(endpoint)
    + "', requestPath='" + Show(requestPath) + "', model='" + Show(model)
    + "', apiKey='[REDACTED]', customProperties=" + (if customProperties.None? then "null" else "{...}") + "}"
  }

  class ChatConfig {
    var provider: JString
    var endpoint: JString
    var requestPath: JString
    var model: JString
    var apiKey: JString
    var customProperties: Option<map<string, Json>>
    var logEnabled: bool
    var retryEnabled: bool
    var retryCount: int
    var retryInitialDelayMs: int

    function Base(): BaseFields
      reads this
    {
      BaseFields(provider, endpoint, requestPath, model, apiKey, customProperties)
    }

    /** A new configuration: logging and retry on, 3 retries, 1000 ms delay, every string null. */
    constructor ()
      ensures Base() == BaseFields(None, None, None, None, None, None)
      ensures logEnabled && retryEnabled && retryCount == 3 && retryInitialDelayMs == 1000
    {
      provider, endpoint, requestPath, model, apiKey, customProperties := None, None, None, None, None, None;
      logEnabled, retryEnabled, retryCount, retryInitialDelayMs := true, true, 3, 1000;
    }

    method SetProvider(p: JString)
      modifies this`provider
      ensures provider == p
    {
      provider := p;
    }

    method SetEndpoint(e: JString)
      modifies this`endpoint
      ensures endpoint == NormalizeEndpoint(e)
    {
      endpoint := NormalizeEndpoint(e);
    }

    method SetRequestPath(p: JString)
      modifies this`requestPath
      ensures requestPath == NormalizePath(p)
    {
      requestPath := NormalizePath(p);
    }

    /** `setModel`: the model is stored trimmed; null stays null. */
    method SetModel(m: JString)
      modifies this`model
      ensures m.None? ==> model.None?
      ensures m.Some? ==> model == Some(Trim(m.value))
    {
      model := if m.Some? then Some(Trim(m.value)) else None;
    }

    method SetApiKey(k: JString)
      modifies this`apiKey
      ensures apiKey == k
    {
      apiKey := k;
    }

    /** `setCustomProperties`: a copy of the map (a map value here), or null. */
    method SetCustomProperties(m: Option<map<string, Json>>)
      modifies this`customProperties
      ensures customProperties == m
    {
      customProperties := m;
    }

    /** `putCustomProperty`: creates the map on first use, then puts or overwrites the key. */
    method PutCustomProperty(k: string, v: Json)
      modifies this`customProperties
      ensures customProperties == Some(old(customProperties).GetOr(map[])[k := v])
    {
      if customProperties.None? {
        customProperties := Some(map[]);
      }
      customProperties := Some(customProperties.value[k := v]);
    }

    method SetLogEnabled(b: bool)
      modifies this`logEnabled
      ensures logEnabled == b
    {
      logEnabled := b;
    }

    method SetRetryEnabled(b: bool)
      modifies this`retryEnabled
      ensures retryEnabled == b
    {
      retryEnabled := b;
    }

    method SetRetryCount(n: int)
      modifies this`retryCount
      ensures retryCount == n
    {
      retryCount := n;
    }

    method SetRetryInitialDelayMs(n: int)
      modifies this`retryInitialDelayMs
      ensures retryInitialDelayMs == n
    {
      retryInitialDelayMs := n;
    }

    /** `getFullUrl`: endpoint then request path, a null part read as "". */
    function FullUrl(): (r: string)
      reads this
      ensures |r| == |OrEmpty(endpoint)| + |OrEmpty(requestPath)|
      ensures StartsWith(r, OrEmpty(endpoint)) && EndsWith(r, OrEmpty(requestPath))
    {
      var e := OrEmpty(endpoint);
      var p := OrEmpty(requestPath);
      assert (e + p)[..|e|] == e && (e + p)[|e + p| - |p|..] == p;
      e + p
    }

    /** `toString` headed by the given class name: never shows the API key. */
    function ToStringAs(className: string): string
      reads this
    {
      Describe(className, provider, endpoint, requestPath, model, customProperties)
    }

    /** `toString` of this generation, which always prints the head `BaseModelConfig`. */
    function ToString(): string
      reads this
    {
      ToStringAs("BaseModelConfig")
    }

    /** `equals`: the six `BaseModelConfig` fields; the `ChatConfig` retry and log settings play no part. */
    predicate Equals(other: ChatConfig)
      reads this, other
    {
      this == other || Base() == other.Base()
    }
  }

  /** Two configurations that differ only in their API key print the same, whatever the head. */
  lemma ToStringHidesApiKey(a: ChatConfig, b: ChatConfig, className: string)
    requires a.Base() == b.Base().(apiKey := a.apiKey)
    ensures a.ToStringAs(className) == b.ToStringAs(className)
    ensures a.ToString() == b.ToString()
  {
  }

  /** Two configurations with the same base fields are equal whatever their retry settings. */
  lemma EqualsIgnoresRetrySettings(a: ChatConfig, b: ChatConfig)
    requires a.Base() == b.Base()
    ensures a.Equals(b) && b.Equals(a)
  {
  }
}
