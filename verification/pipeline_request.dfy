/**
 * Request building of the `me.maydeng.llmkit` generation: the `Maps`
 * builder, `OpenAIChatMessageSerializer` and
 * `OpenAIChatRequestSpecBuilder`.  A request body is a map from key to
 * JSON value; a Java null stored under a key is `JNull`.
 */
module PipelineRequest {
  import opened Wrappers
  import opened JavaText
  import opened Json
  import opened PipelinePrompt
  import opened PipelineConfig

  /** A `HashMap<String, Object>` whose setters put in place. */
  class Maps {
    var entries: map<string, Json>

    constructor ()
      ensures entries == map[]
    {
      entries := map[];
    }

    /** `Maps.of(k, v)`: exactly one entry. */
    static method Of(k: string, v: Json) returns (m: Maps)
      ensures fresh(m) && m.entries == map[k := v]
    {
      m := new Maps();
      m.entries := m.entries[k := v];
    }

    /** `set`: puts or overwrites `k`, every other key unchanged. */
    method Set(k: string, v: Json)
      modifies this`entries
      ensures entries == old(entries)[k := v]
    {
      entries := entries[k := v];
    }

    /** `setIf`: puts only when the condition holds. */
    method SetIf(condition: bool, k: string, v: Json)
      modifies this`entries
      ensures condition ==> entries == old(entries)[k := v]
      ensures !condition ==> entries == old(entries)
    {
      if condition {
        entries := entries[k := v];
      }
    }

    /** `setIfNotNull`: puts only a non-null value. */
    method SetIfNotNull(k: string, v: Json)
      modifies this`entries
      ensures v != JNull ==> entries == old(entries)[k := v]
      ensures v == JNull ==> entries == old(entries)
    {
      if v != JNull {
        entries := entries[k := v];
      }
    }

    /** `setIfNotEmpty`: skips null and a zero-length character sequence. */
    method SetIfNotEmpty(k: string, v: Json)
      modifies this`entries
      ensures v != JNull && v != JString([]) ==> entries == old(entries)[k := v]
      ensures v == JNull || v == JString([]) ==> entries == old(entries)
    {
      if v == JNull {
        return;
      }
      if v.JString? && |v.s| == 0 {
        return;
      }
      entries := entries[k := v];
    }

    /** `putAll`: every entry of `m`, overriding keys already present. */
    method PutAll(m: map<string, Json>)
      modifies this`entries
      ensures entries == old(entries) + m
    {
      entries := entries + m;
    }
  }

  /** The wire role of a message kind; other kinds have none. */
  function Role(k: Kind): (r: Option<string>)
    ensures r.None? <==> k == OtherKind
  {
    match k
    case UserKind => Some("user")
    case SystemKind => Some("system")
    case AiKind => Some("assistant")
    case OtherKind => None
  }

  /** The map one message serializes to: role and content, or nothing for an unknown kind. */
  function Entry(m: Message): (r: map<string, Json>)
    ensures m.kind == OtherKind ==> r == map[]
    ensures m.kind != OtherKind ==>
      (r.Keys == {"role", "content"}
       && r["role"] == JString(Role(m.kind).value) && r["content"] == StringValue(m.content))
  {
    match Role(m.kind)
    case None => map[]
    case Some(role) => map["role" := JString(role), "content" := StringValue(m.content)]
  }

  /** What `serializeMessages` returns: null for a null or empty list, else one entry per message in order. */
  function Serialized(messages: Option<seq<Message>>): (r: Option<seq<map<string, Json>>>)
    ensures r.None? <==> messages.None? || messages.value == []
    ensures r.Some? ==>
      (|r.value| == |messages.value|
       && forall i :: 0 <= i < |r.value| ==> r.value[i] == Entry(messages.value[i]))
  {
    if messages.None? || |messages.value| == 0 then None
    else Some(seq(|messages.value|, i requires 0 <= i < |messages.value| => Entry(messages.value[i])))
  }

  /** The serializer's loop over the message list. */
  method SerializeMessages(messages: Option<seq<Message>>) returns (r: Option<seq<map<string, Json>>>)
    ensures r == Serialized(messages)
  {
    if messages.None? || |messages.value| == 0 {
      return None;
    }
    var ms := messages.value;
    var list: seq<map<string, Json>> := [];
    for i := 0 to |ms|
      invariant |list| == i
      invariant forall j :: 0 <= j < i ==> list[j] == Entry(ms[j])
    {
      var objectMap: map<string, Json> := map[];
      if ms[i].kind == UserKind {
        objectMap := objectMap["role" := JString("user")]["content" := StringValue(ms[i].content)];
      } else if ms[i].kind == SystemKind {
        objectMap := objectMap["role" := JString("system")]["content" := StringValue(ms[i].content)];
      } else if ms[i].kind == AiKind {
        objectMap := objectMap["role" := JString("assistant")]["content" := StringValue(ms[i].content)];
      }
      assert objectMap == Entry(ms[i]);
      list := list + [objectMap];
    }
    assert forall j :: 0 <= j < |list| ==> list[j] == Serialized(messages).value[j];
    assert list == Serialized(messages).value;
    r := Some(list);
  }

  /** A serialized list as the JSON value stored under "messages". */
  function ListValue(l: Option<seq<map<string, Json>>>): (r: Json)
    ensures l.None? <==> r == JNull
    ensures l.Some? ==>
      (r.JArray? && |r.items| == |l.value|
       && forall i :: 0 <= i < |l.value| ==> r.items[i] == JObject(l.value[i]))
  {
    match l
    case None => JNull
    case Some(items) => JArray(seq(|items|, i requires 0 <= i < |items| => JObject(items[i])))
  }

  /** The extra entries `buildRequestBody` copies in last (null reads as none). */
  function Extra(o: Options): map<string, Json> {
    o.extra.GetOr(map[])
  }

  /** The scalar keys put first: the model, then "stream", "temperature" and "max_tokens" when set. */
  function Header(o: Options, configModel: JString): map<string, Json> {
    var model := map["model" := StringValue(o.ModelOrDefault(configModel))];
    var stream := if o.streaming then model["stream" := JBool(true)] else model;
    var temperature := if o.temperature.Some? then stream["temperature" := JDecimal(o.temperature.value)] else stream;
    if o.maxTokens.Some? then temperature["max_tokens" := JInt(o.maxTokens.value)] else temperature
  }

  /** The body before the extra entries are applied. */
  function NamedBody(messages: seq<Message>, o: Options, configModel: JString): map<string, Json> {
    var withMessages := Header(o, configModel)["messages" := ListValue(Serialized(Some(messages)))];
    if o.streaming && o.IncludeUsageOrDefault(true)
    then withMessages["stream_options" := JObject(map["include_usage" := JBool(true)])]
    else withMessages
  }

  /** `buildRequestBody` as a map: the named keys, then the extras on top. */
  function Body(messages: seq<Message>, o: Options, configModel: JString): map<string, Json> {
    NamedBody(messages, o, configModel) + Extra(o)
  }

  lemma HeaderKeys(o: Options, configModel: JString)
    ensures var h := Header(o, configModel);
      && "model" in h && h["model"] == StringValue(o.ModelOrDefault(configModel))
      && ("stream" in h <==> o.streaming) && (o.streaming ==> h["stream"] == JBool(true))
      && ("temperature" in h <==> o.temperature.Some?)
      && (o.temperature.Some? ==> h["temperature"] == JDecimal(o.temperature.value))
      && ("max_tokens" in h <==> o.maxTokens.Some?)
      && (o.maxTokens.Some? ==> h["max_tokens"] == JInt(o.maxTokens.value))
      && h.Keys <= {"model", "stream", "temperature", "max_tokens"}
  {
  }

  lemma NamedBodyKeys(messages: seq<Message>, o: Options, configModel: JString)
    ensures var h := Header(o, configModel); var nb := NamedBody(messages, o, configModel);
      && (forall k :: k != "messages" && k != "stream_options" ==> (k in nb <==> k in h) && (k in h ==> nb[k] == h[k]))
      && "messages" in nb && nb["messages"] == ListValue(Serialized(Some(messages)))
      && ("stream_options" in nb <==> o.streaming && o.includeUsage != Some(false))
  {
  }

  /** The keys of the body that no extra entry overrides: what each holds and when it is present. */
  lemma BodyNamedKeys(messages: seq<Message>, o: Options, configModel: JString)
    ensures var b := Body(messages, o, configModel);
      && ("model" !in Extra(o) ==> "model" in b && b["model"] == StringValue(o.ModelOrDefault(configModel)))
      && ("stream" !in Extra(o) ==> ("stream" in b <==> o.streaming) && (o.streaming ==> b["stream"] == JBool(true)))
      && ("temperature" !in Extra(o) ==>
            (("temperature" in b <==> o.temperature.Some?)
             && (o.temperature.Some? ==> b["temperature"] == JDecimal(o.temperature.value))))
      && ("max_tokens" !in Extra(o) ==>
            (("max_tokens" in b <==> o.maxTokens.Some?)
             && (o.maxTokens.Some? ==> b["max_tokens"] == JInt(o.maxTokens.value))))
      && ("messages" !in Extra(o) ==> "messages" in b && b["messages"] == ListValue(Serialized(Some(messages))))
      && ("stream_options" !in Extra(o) ==>
            ("stream_options" in b <==> o.streaming && o.includeUsage != Some(false)))
  {
    HeaderKeys(o, configModel);
    NamedBodyKeys(messages, o, configModel);
    var nb := NamedBody(messages, o, configModel);
    var b := Body(messages, o, configModel);
    assert forall k :: k !in Extra(o) ==> (k in b <==> k in nb) && (k in b ==> b[k] == nb[k]);
  }

  /** The body has no key besides the six named ones and the extras. */
  lemma BodyHasNoOtherKeys(messages: seq<Message>, o: Options, configModel: JString, k: string)
    requires k !in Extra(o)
    requires k !in {"model", "stream", "temperature", "max_tokens", "messages", "stream_options"}
    ensures k !in Body(messages, o, configModel)
  {
    HeaderKeys(o, configModel);
    NamedBodyKeys(messages, o, configModel);
  }

  /** Extra entries are applied last and win over any named key. */
  lemma ExtrasOverride(messages: seq<Message>, o: Options, configModel: JString)
    ensures forall k :: k in Extra(o) ==>
      (k in Body(messages, o, configModel) && Body(messages, o, configModel)[k] == Extra(o)[k])
  {
  }

  /** A blank option model falls back to the configured model. */
  lemma BlankModelUsesConfigModel(messages: seq<Message>, o: Options, configModel: JString)
    requires !PipelineStrings.HasText(o.model) && "model" !in Extra(o)
    ensures Body(messages, o, configModel)["model"] == StringValue(configModel)
  {
  }

  /** An empty prompt still sets "messages", to null. */
  lemma EmptyPromptSetsNullMessages(o: Options, configModel: JString)
    requires "messages" !in Extra(o)
    ensures Body([], o, configModel)["messages"] == JNull
  {
  }

  /** The first four puts of `buildRequestBody`, on a fresh `Maps`. */
  method StartBody(o: Options, configModel: JString) returns (result: Maps)
    ensures fresh(result) && result.entries == Header(o, configModel)
  {
    result := Maps.Of("model", StringValue(o.ModelOrDefault(configModel)));
    result.SetIf(o.streaming, "stream", JBool(true));
    result.SetIfNotNull("temperature", if o.temperature.Some? then JDecimal(o.temperature.value) else JNull);
    result.SetIfNotNull("max_tokens", if o.maxTokens.Some? then JInt(o.maxTokens.value) else JNull);
  }

  /** `buildRequestBody` step by step on a `Maps`. */
  method BuildRequestBody(prompt: SimplePrompt, options: ChatOptions, config: ChatConfig)
    returns (body: map<string, Json>)
    ensures body == Body(prompt.Messages(), options.Value(), config.model)
  {
    var o := options.Value();
    var messages := prompt.Messages();
    var serialized := SerializeMessages(Some(messages));
    var result := StartBody(o, config.model);
    result.Set("messages", ListValue(serialized));
    if o.streaming && o.IncludeUsageOrDefault(true) {
      var usage := Maps.Of("include_usage", JBool(true));
      result.Set("stream_options", JObject(usage.entries));
    }
    assert result.entries == NamedBody(messages, o, config.model);
    if o.extra.Some? && o.extra.value != map[] {
      result.PutAll(o.extra.value);
    } else {
      assert Extra(o) == map[];
      assert result.entries + Extra(o) == result.entries;
    }
    body := result.entries;
  }

  /** `buildRequestHeaders`: exactly the content type and the bearer token. */
  function Headers(apiKey: JString): (h: map<string, string>)
    ensures h.Keys == {"Content-Type", "Authorization"}
    ensures h["Content-Type"] == "application/json"
    ensures StartsWith(h["Authorization"], "Bearer ")
      && h["Authorization"][|"Bearer "|..] == Show(apiKey)
  {
    map["Content-Type" := "application/json", "Authorization" := "Bearer " + Show(apiKey)]
  }

  /** The effective retry count and delay: option override, else config; both 0 when retry is off. */
  function ResolveRetry(o: Options, retryEnabled: bool, retryCount: int, retryInitialDelayMs: int): (r: (int, int))
  {
    if o.RetryEnabledOrDefault(retryEnabled)
    then (o.RetryCountOrDefault(retryCount), o.RetryInitialDelayMsOrDefault(retryInitialDelayMs))
    else (0, 0)
  }

  lemma ResolveRetryCases(o: Options, retryEnabled: bool, retryCount: int, retryInitialDelayMs: int)
    ensures var r := ResolveRetry(o, retryEnabled, retryCount, retryInitialDelayMs);
      && (o.retryEnabled == Some(false) || (o.retryEnabled.None? && !retryEnabled) ==> r == (0, 0))
      && (o.retryEnabled == Some(true) || (o.retryEnabled.None? && retryEnabled) ==>
            r.0 == (if o.retryCount.Some? then o.retryCount.value else retryCount)
            && r.1 == (if o.retryInitialDelayMs.Some? then o.retryInitialDelayMs.value else retryInitialDelayMs))
  {
  }

  /** `ChatRequestSpec`: what the client posts and how often it may retry. */
  datatype RequestSpec = RequestSpec(
    url: string, headers: map<string, string>, body: map<string, Json>,
    retryCount: int, retryInitialDelayMs: int)

  /** The request for a prompt's messages under the given options and configuration. */
  function RequestOf(messages: seq<Message>, o: Options, config: ChatConfig): RequestSpec
    reads config
  {
    var (retryCount, retryDelayMs) := ResolveRetry(o, config.retryEnabled, config.retryCount, config.retryInitialDelayMs);
    RequestSpec(config.FullUrl(), Headers(config.apiKey), Body(messages, o, config.model), retryCount, retryDelayMs)
  }

  /** `buildRequest`: URL, headers and body, and the retry budget resolved from options and configuration. */
  method BuildRequest(prompt: SimplePrompt, options: ChatOptions, config: ChatConfig)
    returns (spec: RequestSpec)
    ensures spec == RequestOf(prompt.Messages(), options.Value(), config)
  {
    var url := config.FullUrl();
    var headers := Headers(config.apiKey);
    var body := BuildRequestBody(prompt, options, config);
    var o := options.Value();
    var retryEnabled := o.RetryEnabledOrDefault(config.retryEnabled);
    var retryCount := o.RetryCountOrDefault(config.retryCount);
    var retryDelayMs := o.RetryInitialDelayMsOrDefault(config.retryInitialDelayMs);
    spec := RequestSpec(url, headers, body,
                        if retryEnabled then retryCount else 0,
                        if retryEnabled then retryDelayMs else 0);
  }
}
