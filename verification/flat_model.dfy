/**
 * `io.github.llmkit.chat.openai.OpenAIChatModel`: request building, the
 * retry-or-once choice of `call`, response parsing, and the listener that
 * `stream` hands to the SSE client.
 *
 * The transport is abstract.  `post(k)` is the outcome of the k-th POST of
 * the request, and `parseObject(text)` is what `JSON.parseObject` makes of
 * a text (`None` when it throws or does not give an object).  The SSE
 * client is the sequence of events it delivers to the listener; `stream`
 * returns once the first close event has been delivered.
 */
module FlatModel {
  import opened Wrappers
  import opened JavaText
  import opened Json
  import opened FlatErrors
  import opened FlatMessages
  import opened FlatOptions
  import opened FlatRetry
  import FlatPrompts
  import PipelineConfig
  import PipelineRequest

  /* ---------------------------------------------------------------- requests */

  /** The URL, headers and body one call posts. */
  datatype Request = Request(url: string, headers: map<string, string>, body: map<string, Json>)

  /** One element of the "messages" array: the role and the content, a null content kept as null. */
  function MessageEntry(m: Message): (r: map<string, Json>)
    ensures r.Keys == {"role", "content"}
    ensures r["role"] == JString(Value(TypeOf(m))) && r["content"] == StringValue(m.content)
  {
    map["role" := JString(Role(m)), "content" := StringValue(m.content)]
  }

  /** The "messages" array: one entry per message of the prompt, in order. */
  function MessagesValue(ms: seq<Message>): (r: Json)
    ensures r.JArray? && |r.items| == |ms|
    ensures forall i :: 0 <= i < |ms| ==> r.items[i] == JObject(MessageEntry(ms[i]))
  {
    JArray(seq(|ms|, i requires 0 <= i < |ms| => JObject(MessageEntry(ms[i]))))
  }

  /** One `if (x != null) body.put(key, x)` step: the key is put only when the value is present. */
  function PutIf(b: map<string, Json>, key: string, v: Option<Json>): map<string, Json> {
    if v.Some? then b[key := v.value] else b
  }

  function DecimalValue(d: Option<Decimal>): Option<Json> {
    if d.Some? then Some(JDecimal(d.value)) else None
  }

  /** "model" and "messages", the two keys every body has. */
  function BaseBody(ms: seq<Message>, o: Options, configModel: JString): map<string, Json> {
    map["model" := StringValue(o.ModelOrDefault(configModel)), "messages" := MessagesValue(ms)]
  }

  /** The five sampling parameters, each put only when it is set. */
  function WithSampling(b: map<string, Json>, o: Options): map<string, Json> {
    var b1 := PutIf(b, "temperature", DecimalValue(o.temperature));
    var b2 := PutIf(b1, "max_tokens", if o.maxTokens.Some? then Some(JInt(o.maxTokens.value)) else None);
    var b3 := PutIf(b2, "top_p", DecimalValue(o.topP));
    var b4 := PutIf(b3, "frequency_penalty", DecimalValue(o.frequencyPenalty));
    PutIf(b4, "presence_penalty", DecimalValue(o.presencePenalty))
  }

  /** "stream" when streaming, and "stream_options" when streaming with usage explicitly requested. */
  function WithStream(b: map<string, Json>, o: Options, stream: bool): map<string, Json> {
    var b1 := PutIf(b, "stream", if stream then Some(JBool(true)) else None);
    PutIf(b1, "stream_options",
          if stream && o.includeUsage == Some(true) then Some(JObject(map["include_usage" := JBool(true)])) else None)
  }

  /** The body before the extras are put on top of it. */
  function NamedBody(ms: seq<Message>, o: Options, configModel: JString, stream: bool): map<string, Json> {
    WithStream(WithSampling(BaseBody(ms, o, configModel), o), o, stream)
  }

  /** `buildRequestBody`: the named keys, then every extra entry. */
  function RequestBody(ms: seq<Message>, o: Options, configModel: JString, stream: bool): map<string, Json> {
    NamedBody(ms, o, configModel, stream) + o.extra
  }

  /** "model" and "messages" are always present unless an extra entry overrides them. */
  lemma RequestBodyBaseKeys(ms: seq<Message>, o: Options, configModel: JString, stream: bool)
    ensures var b := RequestBody(ms, o, configModel, stream);
      && ("model" !in o.extra ==> "model" in b && b["model"] == StringValue(o.ModelOrDefault(configModel)))
      && ("messages" !in o.extra ==> "messages" in b && b["messages"] == MessagesValue(ms))
  {
    var base := BaseBody(ms, o, configModel);
    var sampled := WithSampling(base, o);
    assert "model" in sampled && sampled["model"] == base["model"];
    assert "messages" in sampled && sampled["messages"] == base["messages"];
  }

  /** "temperature" and "max_tokens", when no extra entry overrides them, are present iff set, with their values. */
  lemma RequestBodySamplingKeys(ms: seq<Message>, o: Options, configModel: JString, stream: bool)
    ensures var b := RequestBody(ms, o, configModel, stream);
      && ("temperature" !in o.extra ==>
            (("temperature" in b <==> o.temperature.Some?)
             && (o.temperature.Some? ==> b["temperature"] == JDecimal(o.temperature.value))))
      && ("max_tokens" !in o.extra ==>
            (("max_tokens" in b <==> o.maxTokens.Some?)
             && (o.maxTokens.Some? ==> b["max_tokens"] == JInt(o.maxTokens.value))))
  {
    var base := BaseBody(ms, o, configModel);
    assert base.Keys == {"model", "messages"};
    SampledKeys(base, o);
    StreamKeepsOthers(WithSampling(base, o), o, stream);
  }

  /** The three other sampling parameters, when no extra entry overrides them, are present iff set, with their values. */
  lemma RequestBodyPenaltyKeys(ms: seq<Message>, o: Options, configModel: JString, stream: bool)
    ensures var b := RequestBody(ms, o, configModel, stream);
      && ("top_p" !in o.extra ==>
            (("top_p" in b <==> o.topP.Some?) && (o.topP.Some? ==> b["top_p"] == JDecimal(o.topP.value))))
      && ("frequency_penalty" !in o.extra ==>
            (("frequency_penalty" in b <==> o.frequencyPenalty.Some?)
             && (o.frequencyPenalty.Some? ==> b["frequency_penalty"] == JDecimal(o.frequencyPenalty.value))))
      && ("presence_penalty" !in o.extra ==>
            (("presence_penalty" in b <==> o.presencePenalty.Some?)
             && (o.presencePenalty.Some? ==> b["presence_penalty"] == JDecimal(o.presencePenalty.value))))
  {
    var base := BaseBody(ms, o, configModel);
    assert base.Keys == {"model", "messages"};
    SampledKeys(base, o);
    StreamKeepsOthers(WithSampling(base, o), o, stream);
  }

  /** The stream layer touches no key but "stream" and "stream_options". */
  lemma StreamKeepsOthers(b: map<string, Json>, o: Options, stream: bool)
    ensures var s := WithStream(b, o, stream);
      forall k :: k != "stream" && k != "stream_options" ==> (k in s <==> k in b) && (k in b ==> s[k] == b[k])
  {
  }

  lemma SampledKeys(b: map<string, Json>, o: Options)
    requires "temperature" !in b && "max_tokens" !in b && "top_p" !in b
    requires "frequency_penalty" !in b && "presence_penalty" !in b
    ensures var s := WithSampling(b, o);
      && ("temperature" in s <==> o.temperature.Some?)
      && (o.temperature.Some? ==> s["temperature"] == JDecimal(o.temperature.value))
      && ("max_tokens" in s <==> o.maxTokens.Some?)
      && (o.maxTokens.Some? ==> s["max_tokens"] == JInt(o.maxTokens.value))
      && ("top_p" in s <==> o.topP.Some?) && (o.topP.Some? ==> s["top_p"] == JDecimal(o.topP.value))
      && ("frequency_penalty" in s <==> o.frequencyPenalty.Some?)
      && (o.frequencyPenalty.Some? ==> s["frequency_penalty"] == JDecimal(o.frequencyPenalty.value))
      && ("presence_penalty" in s <==> o.presencePenalty.Some?)
      && (o.presencePenalty.Some? ==> s["presence_penalty"] == JDecimal(o.presencePenalty.value))
  {
  }

  /** "stream" is present iff streaming, "stream_options" iff streaming with `includeUsage` explicitly true. */
  lemma RequestBodyStreamKeys(ms: seq<Message>, o: Options, configModel: JString, stream: bool)
    ensures var b := RequestBody(ms, o, configModel, stream);
      && ("stream" !in o.extra ==> ("stream" in b <==> stream) && (stream ==> b["stream"] == JBool(true)))
      && ("stream_options" !in o.extra ==>
            ("stream_options" in b <==> stream && o.includeUsage == Some(true)))
  {
  }

  /** The body has no key besides the nine named ones and the extras. */
  lemma RequestBodyHasNoOtherKeys(ms: seq<Message>, o: Options, configModel: JString, stream: bool, k: string)
    requires k !in o.extra
    requires k !in {"model", "messages", "temperature", "max_tokens", "top_p", "frequency_penalty",
                    "presence_penalty", "stream", "stream_options"}
    ensures k !in RequestBody(ms, o, configModel, stream)
  {
  }

  /** Extras are put last and win over a named key. */
  lemma ExtrasOverride(ms: seq<Message>, o: Options, configModel: JString, stream: bool)
    ensures forall k :: k in o.extra ==>
      (k in RequestBody(ms, o, configModel, stream) && RequestBody(ms, o, configModel, stream)[k] == o.extra[k])
  {
  }

  /**
   * A model of spaces is sent as it is, where the other generation would
   * fall back to the configured model; and without an explicit
   * `includeUsage` a streaming request carries no "stream_options".
   */
  lemma BlankModelAndUsageDiffer(ms: seq<Message>, o: Options, configModel: JString)
    requires o.model == Some(" ") && o.includeUsage.None? && o.extra == map[]
    ensures RequestBody(ms, o, configModel, true)["model"] == JString(" ")
    ensures "stream_options" !in RequestBody(ms, o, configModel, true)
  {
  }

  /** The loop of `buildRequestBody` that fills the "messages" array. */
  method BuildMessages(ms: seq<Message>) returns (messages: Json)
    ensures messages == MessagesValue(ms)
  {
    var items: seq<Json> := [];
    for i := 0 to |ms|
      invariant |items| == i
      invariant forall j :: 0 <= j < i ==> items[j] == JObject(MessageEntry(ms[j]))
    {
      var msgObj: map<string, Json> := map[];
      msgObj := msgObj["role" := JString(Role(ms[i]))];
      msgObj := msgObj["content" := StringValue(ms[i].content)];
      items := items + [JObject(msgObj)];
    }
    messages := JArray(items);
  }

  /** `if (x != null) body.put(key, x)`. */
  method PutIfPresent(b: map<string, Json>, key: string, v: Option<Json>) returns (body: map<string, Json>)
    ensures body == PutIf(b, key, v)
  {
    body := b;
    if v.Some? {
      body := body[key := v.value];
    }
  }

  /** The five sampling steps of `buildRequestBody`. */
  method PutSampling(b: map<string, Json>, o: Options) returns (body: map<string, Json>)
    ensures body == WithSampling(b, o)
  {
    body := PutIfPresent(b, "temperature", DecimalValue(o.temperature));
    body := PutIfPresent(body, "max_tokens", if o.maxTokens.Some? then Some(JInt(o.maxTokens.value)) else None);
    body := PutIfPresent(body, "top_p", DecimalValue(o.topP));
    body := PutIfPresent(body, "frequency_penalty", DecimalValue(o.frequencyPenalty));
    body := PutIfPresent(body, "presence_penalty", DecimalValue(o.presencePenalty));
  }

  /** The stream flag and, with usage explicitly requested, the stream options. */
  method PutStream(b: map<string, Json>, o: Options, stream: bool) returns (body: map<string, Json>)
    ensures body == WithStream(b, o, stream)
  {
    body := b;
    if stream {
      body := body["stream" := JBool(true)];
      if o.includeUsage == Some(true) {
        var streamOptions: map<string, Json> := map["include_usage" := JBool(true)];
        body := body["stream_options" := JObject(streamOptions)];
      }
    }
  }

  /** `if (extra != null && !extra.isEmpty()) body.putAll(extra)`. */
  method PutExtra(b: map<string, Json>, extra: map<string, Json>) returns (body: map<string, Json>)
    ensures body == b + extra
  {
    body := b;
    if |extra| > 0 {
      body := body + extra;
    } else {
      assert extra == map[];
    }
  }

  /** `buildRequestBody`, filling the object step by step. */
  method BuildRequestBody(prompt: FlatPrompts.Prompt, o: Options, configModel: JString, stream: bool)
    returns (body: map<string, Json>)
    ensures body == RequestBody(FlatPrompts.Messages(prompt), o, configModel, stream)
  {
    var ms := FlatPrompts.Messages(prompt);
    body := map["model" := StringValue(o.ModelOrDefault(configModel))];
    var messages := BuildMessages(ms);
    body := body["messages" := messages];
    body := PutSampling(body, o);
    body := PutStream(body, o, stream);
    body := PutExtra(body, o.extra);
  }

  /** The request of one call: the configuration's URL, the bearer headers and the body. */
  function RequestOf(prompt: FlatPrompts.Prompt, o: Options, config: PipelineConfig.ChatConfig, stream: bool): (r: Request)
    reads config
    ensures r.url == config.FullUrl() && r.headers == PipelineRequest.Headers(config.apiKey)
  {
    Request(config.FullUrl(), PipelineRequest.Headers(config.apiKey),
            RequestBody(FlatPrompts.Messages(prompt), o, config.model, stream))
  }

  /* ------------------------------------------------------------- responses */

  datatype Usage = Usage(promptTokens: int, completionTokens: int, totalTokens: int)

  /** `ChatResponse`: the message is an assistant message or null. */
  datatype ChatResponse = ChatResponse(message: Option<Message>, rawResponse: JString, usage: Option<Usage>, finishReason: JString)

  /** What the generic `catch` turns any unexpected exception into. */
  function Invalid(response: JString): Failure {
    InvalidJson(response, Unchecked)
  }

  /** The usage object, each missing or non-integer count read as 0. */
  function UsageOf(u: map<string, Json>): (r: Usage)
    ensures "prompt_tokens" in u && u["prompt_tokens"].JInt? ==> r.promptTokens == u["prompt_tokens"].i
    ensures "completion_tokens" in u && u["completion_tokens"].JInt? ==> r.completionTokens == u["completion_tokens"].i
    ensures "total_tokens" in u && u["total_tokens"].JInt? ==> r.totalTokens == u["total_tokens"].i
    ensures "prompt_tokens" !in u ==> r.promptTokens == 0
    ensures "completion_tokens" !in u ==> r.completionTokens == 0
    ensures "total_tokens" !in u ==> r.totalTokens == 0
  {
    Usage(IntMember(u, "prompt_tokens", 0), IntMember(u, "completion_tokens", 0), IntMember(u, "total_tokens", 0))
  }

  /** The first choice once it is known to be an object. */
  function ChoiceResponse(response: JString, json: map<string, Json>, choice: map<string, Json>,
                          parseObject: string -> Option<map<string, Json>>): Outcome<ChatResponse, Failure> {
    match ObjectMember(choice, "message", parseObject)
    case Threw(_) => Threw(Invalid(response))
    case Returned(messageObj) =>
      var content := if messageObj.Some? then StringMember(messageObj.value, "content") else None;
      var finishReason := StringMember(choice, "finish_reason");
      match ObjectMember(json, "usage", parseObject)
      case Threw(_) => Threw(Invalid(response))
      case Returned(usageObj) =>
        var usage := if usageObj.Some? then Some(UsageOf(usageObj.value)) else None;
        Returned(ChatResponse(if content.Some? then Some(AiMessage(content)) else None, response, usage, finishReason))
  }

  /** The body of the `try` in `parseResponse`, on a parsed object. */
  function ObjectResponse(response: JString, json: map<string, Json>,
                          parseObject: string -> Option<map<string, Json>>): Outcome<ChatResponse, Failure> {
    match ObjectMember(json, "error", parseObject)
    case Threw(_) => Threw(Invalid(response))
    case Returned(error) =>
      if error.Some? && error.value != map[] then
        Threw(NewProvider4(StringMember(error.value, "message"), StringMember(error.value, "code"),
                           StringMember(error.value, "type"), response))
      else match ArrayMember(json, "choices")
        case Threw(_) => Threw(Invalid(response))
        case Returned(choices) =>
          if choices.None? || choices.value == [] then
            Threw(InvalidJson(response, Parse(Some("No choices in response"), response, None)))
          else match ObjectItem(choices.value, 0, parseObject)
            case Threw(_) => Threw(Invalid(response))
            case Returned(None) => Threw(Invalid(response))
            case Returned(Some(choice)) => ChoiceResponse(response, json, choice, parseObject)
  }

  /**
   * The "error" member of a parsed reply, read by `getJSONObject`, when it
   * is a non-empty object: the case `parseResponse` reports as a provider error.
   */
  function ErrorObject(json: map<string, Json>, parseObject: string -> Option<map<string, Json>>): Option<map<string, Json>> {
    match ObjectMember(json, "error", parseObject)
    case Returned(Some(e)) => if e != map[] then Some(e) else None
    case _ => None
  }

  /**
   * `parseResponse`.  A provider error is thrown exactly when the text
   * parses to an object whose "error" member reads as a non-empty object
   * (directly, or as JSON text), and it
   * carries that object's "message", "code" and "type" as read by
   * `getString`, the raw text, and no HTTP status.
   */
  function ParseResponse(response: JString, parseObject: string -> Option<map<string, Json>>): (r: Outcome<ChatResponse, Failure>)
    ensures (r.Threw? && r.error.Provider?) <==>
      (response.Some? && response.value != [] && parseObject(response.value).Some? && ErrorObject(parseObject(response.value).value, parseObject).Some?)
    ensures response.Some? && response.value != [] && parseObject(response.value).Some? && ErrorObject(parseObject(response.value).value, parseObject).Some? ==>
      var e := ErrorObject(parseObject(response.value).value, parseObject).value;
      r == Threw(NewProvider4(StringMember(e, "message"), StringMember(e, "code"), StringMember(e, "type"), response))
  {
    if response.None? || response.value == [] then Threw(Parse(Some("Empty response from API"), None, None))
    else match parseObject(response.value)
      case None => Threw(Invalid(response))
      case Some(json) => ObjectResponse(response, json, parseObject)
  }

  /**
   * Every failure is a framework exception, and the only `ChatException`
   * among them is the provider error; a success keeps the raw text and
   * carries an assistant message with non-null content, or none.
   */
  lemma ParseResponseShape(response: JString, parseObject: string -> Option<map<string, Json>>)
    ensures var r := ParseResponse(response, parseObject);
      && (r.Threw? ==> IsKit(r.error) && (IsChatException(r.error) <==> r.error.Provider?))
      && (r.Returned? ==> r.value.rawResponse == response && response.Some? && response.value != [])
      && (r.Returned? && r.value.message.Some? ==>
            r.value.message.value.AiMessage? && r.value.message.value.content.Some?)
  {
  }

  /** A null or empty response is refused with "Empty response from API", the only failure without the raw text. */
  lemma EmptyResponseRejected(response: JString, parseObject: string -> Option<map<string, Json>>)
    ensures var r := ParseResponse(response, parseObject);
      (response.None? || response.value == []) <==>
        (r.Threw? && r.error.Parse? && r.error.rawContent.None?)
    ensures response.None? || response.value == [] ==>
      ParseResponse(response, parseObject) == Threw(Parse(Some("Empty response from API"), None, None))
  {
  }

  /**
   * The usual OpenAI error shape, `{"message", "type", "param": null, "code": null}`:
   * message and type verbatim, a null code, no HTTP status.
   */
  lemma ProviderErrorVerbatim(text: string, parseObject: string -> Option<map<string, Json>>, message: string, errorType: string)
    requires text != [] && parseObject(text).Some? && "error" in parseObject(text).value
    requires parseObject(text).value["error"] ==
      JObject(map["message" := JString(message), "type" := JString(errorType), "param" := JNull, "code" := JNull])
    ensures ParseResponse(Some(text), parseObject)
      == Threw(Provider(Some(message), None, Some(errorType), None, Some(text)))
  {
    var error := map["message" := JString(message), "type" := JString(errorType), "param" := JNull, "code" := JNull];
    assert "message" in error;
    assert ErrorObject(parseObject(text).value, parseObject) == Some(error);
    assert StringMember(error, "message") == Some(message);
    assert StringMember(error, "code") == None;
    assert StringMember(error, "type") == Some(errorType);
  }

  /**
   * An "error" string is JSON text: "" and "null" count as no error, text
   * that parses counts as that object, and text that does not parse is
   * re-wrapped as invalid JSON by the generic `catch`.
   */
  lemma ErrorTextReadAsObject(response: JString, json: map<string, Json>, s: string,
                              parseObject: string -> Option<map<string, Json>>)
    requires "error" in json && json["error"] == JString(s)
    ensures NullText(s) ==>
      ObjectResponse(response, json, parseObject) == ObjectResponse(response, json - {"error"}, parseObject)
    ensures !NullText(s) && parseObject(s).Some? ==>
      ObjectResponse(response, json, parseObject)
        == ObjectResponse(response, json["error" := JObject(parseObject(s).value)], parseObject)
    ensures !NullText(s) && parseObject(s).None? ==> ObjectResponse(response, json, parseObject) == Threw(Invalid(response))
  {
    var rest := json - {"error"};
    var parsed := if parseObject(s).Some? then json["error" := JObject(parseObject(s).value)] else json;
    assert Member(rest, "choices") == Member(json, "choices") == Member(parsed, "choices");
    assert Member(rest, "usage") == Member(json, "usage") == Member(parsed, "usage");
  }

  /**
   * Missing or empty "choices" is first a `ParseException`, which is no
   * `ChatException`, so the generic `catch` wraps it as invalid JSON.
   */
  lemma NoChoicesRewrapped(text: string, parseObject: string -> Option<map<string, Json>>)
    requires text != [] && parseObject(text).Some?
    requires var json := parseObject(text).value;
      Member(json, "error").None? && (Member(json, "choices").None? || Member(json, "choices") == Some(JArray([])))
    ensures var r := ParseResponse(Some(text), parseObject);
      && r == Threw(InvalidJson(Some(text), Parse(Some("No choices in response"), Some(text), None)))
      && !IsChatException(r.error)
  {
  }

  /** A first choice without content gives a null message; a usage object without counts gives zeros. */
  lemma MissingContentAndCounts(text: string, parseObject: string -> Option<map<string, Json>>)
    requires text != []
    requires parseObject(text) == Some(map["choices" := JArray([JObject(map[])]), "usage" := JObject(map[])])
    ensures ParseResponse(Some(text), parseObject) == Returned(ChatResponse(None, Some(text), Some(Usage(0, 0, 0)), None))
  {
    var json := map["choices" := JArray([JObject(map[])]), "usage" := JObject(map[])];
    assert Member(json, "error").None?;
    assert ArrayMember(json, "choices") == Returned(Some([JObject(map[])]));
    assert ObjectMember(json, "usage", parseObject) == Returned(Some(map[]));
  }

  /** A first choice with string content and finish reason is carried over verbatim, with the usage object's counts. */
  lemma ChoiceCarriedOver(response: JString, json: map<string, Json>, content: string, reason: string, usage: map<string, Json>,
                          parseObject: string -> Option<map<string, Json>>)
    requires "usage" in json && json["usage"] == JObject(usage)
    ensures ChoiceResponse(response, json, map["message" := JObject(map["content" := JString(content)]), "finish_reason" := JString(reason)], parseObject)
      == Returned(ChatResponse(Some(AiMessage(Some(content))), response, Some(UsageOf(usage)), Some(reason)))
  {
    var choice := map["message" := JObject(map["content" := JString(content)]), "finish_reason" := JString(reason)];
    assert ObjectMember(choice, "message", parseObject) == Returned(Some(map["content" := JString(content)]));
    assert ObjectMember(json, "usage", parseObject) == Returned(Some(usage));
  }

  /** A well-formed reply: content, finish reason and counts carried over. */
  lemma WellFormedReply(text: string, parseObject: string -> Option<map<string, Json>>, content: string, reason: string, p: int, c: int, t: int)
    requires text != []
    requires parseObject(text) == Some(map[
      "choices" := JArray([JObject(map["message" := JObject(map["content" := JString(content)]),
                                       "finish_reason" := JString(reason)])]),
      "usage" := JObject(map["prompt_tokens" := JInt(p), "completion_tokens" := JInt(c), "total_tokens" := JInt(t)])])
    ensures ParseResponse(Some(text), parseObject)
      == Returned(ChatResponse(Some(AiMessage(Some(content))), Some(text), Some(Usage(p, c, t)), Some(reason)))
  {
    var choice := map["message" := JObject(map["content" := JString(content)]), "finish_reason" := JString(reason)];
    var usage := map["prompt_tokens" := JInt(p), "completion_tokens" := JInt(c), "total_tokens" := JInt(t)];
    var json := map["choices" := JArray([JObject(choice)]), "usage" := JObject(usage)];
    assert Member(json, "error").None?;
    assert ArrayMember(json, "choices") == Returned(Some([JObject(choice)]));
    ChoiceCarriedOver(Some(text), json, content, reason, usage, parseObject);
    assert UsageOf(usage) == Usage(p, c, t);
  }

  /** `parseStreamDelta`: the first choice's delta content, null whenever anything is missing or throws. */
  function ParseStreamDelta(data: string, parseObject: string -> Option<map<string, Json>>): JString {
    match parseObject(data)
    case None => None
    case Some(json) =>
      match ArrayMember(json, "choices")
      case Returned(Some(choices)) =>
        if choices == [] then None
        else (match ObjectItem(choices, 0, parseObject)
          case Returned(Some(choice)) =>
            (match ObjectMember(choice, "delta", parseObject)
             case Returned(Some(delta)) => StringMember(delta, "content")
             case _ => None)
          case _ => None)
      case _ => None
  }

  /** A chunk with a delta carries its content; a chunk without choices carries nothing. */
  lemma StreamDeltaCases(data: string, parseObject: string -> Option<map<string, Json>>, content: string)
    ensures parseObject(data) == Some(map["choices" := JArray([JObject(map["delta" := JObject(map["content" := JString(content)])])])])
      ==> ParseStreamDelta(data, parseObject) == Some(content)
    ensures parseObject(data).None? || (parseObject(data).Some? && "choices" !in parseObject(data).value)
      ==> ParseStreamDelta(data, parseObject).None?
  {
    if parseObject(data) == Some(map["choices" := JArray([JObject(map["delta" := JObject(map["content" := JString(content)])])])]) {
      var delta := map["content" := JString(content)];
      var choice := map["delta" := JObject(delta)];
      assert ArrayMember(parseObject(data).value, "choices") == Returned(Some([JObject(choice)]));
      assert ObjectMember(choice, "delta", parseObject) == Returned(Some(delta));
    }
  }

  /* --------------------------------------------------------------- streams */

  /** What the SSE client delivers to the listener. */
  datatype StreamEvent = Data(data: string) | Error(cause: Failure) | Close

  /** The delta one data event forwards: none for "[DONE]", for an unparsable chunk, or for null or empty content. */
  function Accepted(data: string, parseObject: string -> Option<map<string, Json>>): (r: JString)
    ensures r.Some? ==> data != "[DONE]" && r.value != [] && r == ParseStreamDelta(data, parseObject)
    ensures data == "[DONE]" ==> r.None?
  {
    if data == "[DONE]" then None
    else
      var delta := ParseStreamDelta(data, parseObject);
      if delta.Some? && delta.value != [] then delta else None
  }

  /** The listener's state: the content buffer, the deltas handed to `onDelta`, the error reference and the latch. */
  datatype StreamState = StreamState(content: string, forwarded: seq<string>, error: Option<Failure>, closed: bool)

  const InitialState := StreamState([], [], None, false)

  function Step(s: StreamState, e: StreamEvent, parseObject: string -> Option<map<string, Json>>): StreamState {
    match e
    case Data(d) =>
      var delta := Accepted(d, parseObject);
      if delta.Some? then s.(content := s.content + delta.value, forwarded := s.forwarded + [delta.value]) else s
    case Error(t) => s.(error := Some(t))
    case Close => s.(closed := true)
  }

  /** The state after the listener has seen `events`, one after the other. */
  function Fold(events: seq<StreamEvent>, parseObject: string -> Option<map<string, Json>>): StreamState {
    if events == [] then InitialState
    else Step(Fold(events[..|events| - 1], parseObject), events[|events| - 1], parseObject)
  }

  function Concat(ss: seq<string>): string {
    if ss == [] then [] else Concat(ss[..|ss| - 1]) + ss[|ss| - 1]
  }

  /** The forwarded deltas of the events, in arrival order: a reference definition independent of the state. */
  function Deltas(events: seq<StreamEvent>, parseObject: string -> Option<map<string, Json>>): seq<string> {
    if events == [] then []
    else
      var last := events[|events| - 1];
      var d := if last.Data? then Accepted(last.data, parseObject) else None;
      Deltas(events[..|events| - 1], parseObject) + (if d.Some? then [d.value] else [])
  }

  /** The last error event, if any. */
  function LastError(events: seq<StreamEvent>): Option<Failure> {
    if events == [] then None
    else if events[|events| - 1].Error? then Some(events[|events| - 1].cause)
    else LastError(events[..|events| - 1])
  }

  /** The forwarded deltas are the accepted deltas in arrival order. */
  lemma {:induction false} FoldForwardsDeltas(events: seq<StreamEvent>, parseObject: string -> Option<map<string, Json>>)
    ensures Fold(events, parseObject).forwarded == Deltas(events, parseObject)
  {
    if events != [] {
      FoldForwardsDeltas(events[..|events| - 1], parseObject);
    }
  }

  /** The buffer is exactly the concatenation of the forwarded deltas. */
  lemma {:induction false} FoldContentIsConcat(events: seq<StreamEvent>, parseObject: string -> Option<map<string, Json>>)
    ensures Fold(events, parseObject).content == Concat(Fold(events, parseObject).forwarded)
  {
    if events != [] {
      var init := events[..|events| - 1];
      FoldContentIsConcat(init, parseObject);
      var s := Fold(init, parseObject);
      var last := events[|events| - 1];
      if last.Data? && Accepted(last.data, parseObject).Some? {
        var d := Accepted(last.data, parseObject).value;
        assert (s.forwarded + [d])[..|s.forwarded + [d]| - 1] == s.forwarded;
      }
    }
  }

  /** No forwarded delta is empty. */
  lemma {:induction false} FoldForwardsNonEmpty(events: seq<StreamEvent>, parseObject: string -> Option<map<string, Json>>)
    ensures forall i :: 0 <= i < |Fold(events, parseObject).forwarded| ==> Fold(events, parseObject).forwarded[i] != []
  {
    if events != [] {
      FoldForwardsNonEmpty(events[..|events| - 1], parseObject);
    }
  }

  /** The error reference holds the last error delivered, and the latch is released iff a close was delivered. */
  lemma {:induction false} FoldErrorAndClose(events: seq<StreamEvent>, parseObject: string -> Option<map<string, Json>>)
    ensures Fold(events, parseObject).error == LastError(events)
    ensures Fold(events, parseObject).closed <==> exists i :: 0 <= i < |events| && events[i].Close?
  {
    if events != [] {
      var init := events[..|events| - 1];
      FoldErrorAndClose(init, parseObject);
      if exists i :: 0 <= i < |init| && init[i].Close? {
        var i :| 0 <= i < |init| && init[i].Close?;
        assert events[i].Close?;
      }
      if exists i :: 0 <= i < |events| && events[i].Close? {
        var i :| 0 <= i < |events| && events[i].Close?;
        if i < |init| {
          assert init[i].Close?;
        }
      }
    }
  }

  /** "[DONE]" changes nothing. */
  lemma DoneIgnored(events: seq<StreamEvent>, parseObject: string -> Option<map<string, Json>>)
    ensures Fold(events + [Data("[DONE]")], parseObject) == Fold(events, parseObject)
  {
    assert (events + [Data("[DONE]")])[..|events|] == events;
  }

  /** The number of events the listener receives: up to and including the first close, or all of them. */
  function Reach(events: seq<StreamEvent>): (n: nat)
    ensures n <= |events|
  {
    if events == [] then 0
    else if events[0].Close? then 1
    else 1 + Reach(events[1..])
  }

  /** `stream` returns at the first close and no earlier: the delivered prefix has exactly one close, at its end. */
  lemma {:induction false} ReachStopsAtFirstClose(events: seq<StreamEvent>)
    ensures forall j :: 0 <= j < Reach(events) - 1 ==> !events[j].Close?
    ensures (exists j :: 0 <= j < |events| && events[j].Close?) <==> (Reach(events) > 0 && events[Reach(events) - 1].Close?)
  {
    if events != [] && !events[0].Close? {
      ReachStopsAtFirstClose(events[1..]);
      forall j | 0 <= j < Reach(events) - 1
        ensures !events[j].Close?
      {
        if j > 0 {
          assert events[j] == events[1..][j - 1];
        }
      }
      if exists j :: 0 <= j < |events| && events[j].Close? {
        var j :| 0 <= j < |events| && events[j].Close?;
        assert events[1..][j - 1].Close?;
      }
      if Reach(events) > 0 && events[Reach(events) - 1].Close? {
        assert events[1..][Reach(events[1..]) - 1].Close?;
      }
    }
  }

  /** What a stream error becomes once `stream` returns: a `ChatException` as it is, anything else wrapped. */
  function Rethrown(error: Option<Failure>): (r: Outcome<(), Failure>)
    ensures error.None? <==> r.Returned?
    ensures r.Threw? ==> IsChatException(r.error)
    ensures error.Some? && IsChatException(error.value) ==> r == Threw(error.value)
    ensures error.Some? && !IsChatException(error.value) ==>
      r == Threw(Chat(Some("Stream failed: " + Show(MessageOf(error.value))), None, error))
  {
    match error
    case None => Returned(())
    case Some(e) =>
      if IsChatException(e) then Threw(e)
      else Threw(Chat(Some("Stream failed: " + Show(MessageOf(e))), None, Some(e)))
  }

  /**
   * What `stream` does: the request it sends (none when `onDelta` is null),
   * the deltas handed to `onDelta`, and its outcome, `None` while no close
   * has arrived and the call is still waiting.
   */
  datatype StreamRun = StreamRun(request: Option<Request>, forwarded: seq<string>, outcome: Option<Outcome<(), Failure>>)

  /** The listener object `stream` passes to the SSE client. */
  class StreamListener {
    var content: string
    var forwarded: seq<string>
    var error: Option<Failure>
    var closed: bool
    const parseObject: string -> Option<map<string, Json>>

    function State(): StreamState
      reads this
    {
      StreamState(content, forwarded, error, closed)
    }

    constructor (parse: string -> Option<map<string, Json>>)
      ensures State() == InitialState && parseObject == parse
    {
      content, forwarded, error, closed := [], [], None, false;
      parseObject := parse;
    }

    /** `onMessage`: "[DONE]" ignored, a non-empty delta appended and forwarded, a bad chunk skipped. */
    method OnMessage(data: string)
      modifies this`content, this`forwarded
      ensures State() == Step(old(State()), Data(data), parseObject)
    {
      if data == "[DONE]" {
        return;
      }
      var delta := ParseStreamDelta(data, parseObject);
      if delta.Some? && |delta.value| > 0 {
        content := content + delta.value;
        forwarded := forwarded + [delta.value];
      }
    }

    /** `onError`: the error reference is overwritten. */
    method OnError(t: Failure)
      modifies this`error
      ensures State() == Step(old(State()), Error(t), parseObject)
    {
      error := Some(t);
    }

    /** `onClose`: the latch is released. */
    method OnClose()
      modifies this`closed
      ensures State() == Step(old(State()), Close, parseObject)
    {
      closed := true;
    }
  }

  /** The SSE client delivering `events` to a new listener until it has delivered the first close. */
  method Listen(events: seq<StreamEvent>, parseObject: string -> Option<map<string, Json>>) returns (s: StreamState)
    ensures s == Fold(events[..Reach(events)], parseObject)
    ensures s.closed ==> events[Reach(events) - 1].Close?
  {
    var listener := new StreamListener(parseObject);
    var i := 0;
    while i < |events| && !listener.closed
      invariant 0 <= i <= |events|
      invariant listener.parseObject == parseObject
      invariant listener.State() == Fold(events[..i], parseObject)
      invariant !listener.closed ==> Reach(events) == i + Reach(events[i..])
      invariant listener.closed ==> Reach(events) == i && events[i - 1].Close?
      decreases |events| - i
    {
      assert events[..i + 1][..i] == events[..i];
      assert events[i..][1..] == events[i + 1..];
      match events[i] {
        case Data(d) => listener.OnMessage(d);
        case Error(t) => listener.OnError(t);
        case Close => listener.OnClose();
      }
      i := i + 1;
    }
    s := listener.State();
  }

  /** `stream` on a given event sequence. */
  function StreamSpec(prompt: FlatPrompts.Prompt, onDeltaGiven: bool, options: Option<Options>,
                      config: PipelineConfig.ChatConfig, events: seq<StreamEvent>,
                      parseObject: string -> Option<map<string, Json>>): StreamRun
    reads config
  {
    if !onDeltaGiven then StreamRun(None, [], Some(Threw(IllegalArgument(Some("onDelta callback must not be null")))))
    else
      var s := Fold(events[..Reach(events)], parseObject);
      StreamRun(Some(RequestOf(prompt, options.GetOr(Default), config, true)), s.forwarded,
                if s.closed then Some(Rethrown(s.error)) else None)
  }

  /**
   * Once the call returns, the content received is the concatenation of
   * the forwarded deltas, no forwarded delta is empty, and an error
   * delivered before the close makes the call throw.
   */
  lemma StreamReturns(prompt: FlatPrompts.Prompt, options: Option<Options>, config: PipelineConfig.ChatConfig,
                      events: seq<StreamEvent>, parseObject: string -> Option<map<string, Json>>)
    ensures var r := StreamSpec(prompt, true, options, config, events, parseObject);
      && r.request.Some? && "stream" !in options.GetOr(Default).extra ==> r.request.value.body["stream"] == JBool(true)
    ensures var r := StreamSpec(prompt, true, options, config, events, parseObject);
      && (r.outcome.Some? <==> exists i :: 0 <= i < |events| && events[i].Close?)
      && r.forwarded == Deltas(events[..Reach(events)], parseObject)
      && (forall i :: 0 <= i < |r.forwarded| ==> r.forwarded[i] != [])
      && (r.outcome.Some? ==>
            (r.outcome.value.Threw? <==> LastError(events[..Reach(events)]).Some?))
  {
    RequestBodyStreamKeys(FlatPrompts.Messages(prompt), options.GetOr(Default), config.model, true);
    FoldForwardsDeltas(events[..Reach(events)], parseObject);
    FoldForwardsNonEmpty(events[..Reach(events)], parseObject);
    FoldErrorAndClose(events[..Reach(events)], parseObject);
    ReachStopsAtFirstClose(events);
    var n := Reach(events);
    if exists i :: 0 <= i < |events| && events[i].Close? {
      assert events[..n][n - 1].Close?;
    }
    if exists i :: 0 <= i < n && events[..n][i].Close? {
      var i :| 0 <= i < n && events[..n][i].Close?;
      assert events[i].Close?;
    }
  }

  /* ------------------------------------------------------------------ model */

  /** The retry budget of `call`: the count only when retry is enabled, the delay always. */
  datatype RetryPlan = RetryPlan(count: int, delayMs: int)

  function ResolveRetry(o: Options, config: PipelineConfig.ChatConfig): RetryPlan
    reads config
  {
    RetryPlan(if o.RetryEnabledOrDefault(config.retryEnabled) then o.RetryCountOrDefault(config.retryCount) else 0,
              o.RetryDelayMsOrDefault(config.retryInitialDelayMs))
  }

  /** What one `call` did: the request, the posts and sleeps, the interrupt flag and the outcome. */
  datatype CallRun = CallRun(request: Request, posts: nat, sleeps: nat, interrupted: bool, outcome: Outcome<ChatResponse, Failure>)

  /** The retried or single POST, then `parseResponse` on the text it returned. */
  function CallSpec(prompt: FlatPrompts.Prompt, options: Option<Options>, config: PipelineConfig.ChatConfig,
                    post: nat -> Outcome<JString, Failure>, parseObject: string -> Option<map<string, Json>>,
                    interrupted: bool, interrupts: nat -> bool): CallRun
    reads config
  {
    var o := options.GetOr(Default);
    var request := RequestOf(prompt, o, config, false);
    var plan := ResolveRetry(o, config);
    var run := if plan.count > 0 then RetrySpec(post, plan.count, plan.delayMs, interrupted, interrupts)
               else RetryRun(post(0), 1, 0, interrupted);
    CallRun(request, run.calls, run.sleeps, run.interrupted,
            match run.outcome
            case Threw(e) => Threw(e)
            case Returned(text) => ParseResponse(text, parseObject))
  }

  /**
   * With retry disabled, or a resolved count of 0 or less, there is exactly
   * one POST, no sleep, and its failure is thrown as it is.  A negative
   * count therefore never reaches `Retryer`, which would post nothing.
   */
  lemma NoRetryPostsOnce(prompt: FlatPrompts.Prompt, options: Option<Options>, config: PipelineConfig.ChatConfig,
                         post: nat -> Outcome<JString, Failure>, parseObject: string -> Option<map<string, Json>>,
                         interrupted: bool, interrupts: nat -> bool)
    requires ResolveRetry(options.GetOr(Default), config).count <= 0
    ensures var r := CallSpec(prompt, options, config, post, parseObject, interrupted, interrupts);
      && r.posts == 1 && r.sleeps == 0 && r.interrupted == interrupted
      && (post(0).Threw? ==> r.outcome == Threw(post(0).error))
      && (post(0).Returned? ==> r.outcome == ParseResponse(post(0).value, parseObject))
  {
  }

  /** Retry disabled means a single POST whatever count the options or the configuration hold. */
  lemma RetryDisabledMeansZeroCount(o: Options, config: PipelineConfig.ChatConfig)
    requires !o.RetryEnabledOrDefault(config.retryEnabled)
    ensures ResolveRetry(o, config).count == 0
    ensures ResolveRetry(o, config).delayMs == o.RetryDelayMsOrDefault(config.retryInitialDelayMs)
  {
  }

  /**
   * With a positive count and every POST failing with an exception that is
   * not the framework's own, there are count + 1 POSTs and the call throws
   * the "Operation failed after N retries" wrapper.
   */
  lemma RetriedCallGivesUp(prompt: FlatPrompts.Prompt, options: Option<Options>, config: PipelineConfig.ChatConfig,
                           post: nat -> Outcome<JString, Failure>, parseObject: string -> Option<map<string, Json>>,
                           interrupted: bool, interrupts: nat -> bool)
    requires var n := ResolveRetry(options.GetOr(Default), config).count;
      n > 0 && forall j :: 0 <= j <= n ==> post(j).Threw? && !IsKit(post(j).error)
    ensures var n := ResolveRetry(options.GetOr(Default), config).count;
      var r := CallSpec(prompt, options, config, post, parseObject, interrupted, interrupts);
      && r.posts == n + 1
      && r.outcome == Threw(Kit(None, Some("Operation failed after " + IntToString(n) + " retries"), Some(post(n).error)))
  {
    var o := options.GetOr(Default);
    var plan := ResolveRetry(o, config);
    AllFailuresMakeCountPlusOneCalls(post, plan.count, plan.delayMs, interrupted, interrupts);
  }

  /** A null options argument behaves as `ChatOptions.DEFAULT`. */
  lemma NullOptionsAreDefault(prompt: FlatPrompts.Prompt, config: PipelineConfig.ChatConfig,
                              post: nat -> Outcome<JString, Failure>, parseObject: string -> Option<map<string, Json>>,
                              interrupted: bool, interrupts: nat -> bool)
    ensures CallSpec(prompt, None, config, post, parseObject, interrupted, interrupts)
      == CallSpec(prompt, Some(Default), config, post, parseObject, interrupted, interrupts)
    ensures CallSpec(prompt, None, config, post, parseObject, interrupted, interrupts).request.body["model"]
      == StringValue(config.model)
  {
    DefaultValues();
    RequestBodyBaseKeys(FlatPrompts.Messages(prompt), Default, config.model, false);
  }

  /** `OpenAIChatModel`: a configuration and the two entry points. */
  class OpenAIChatModel {
    const config: PipelineConfig.ChatConfig

    constructor (c: PipelineConfig.ChatConfig)
      ensures config == c
    {
      config := c;
    }

    /** `call`: build the request, post it with or without `Retryer`, parse the reply. */
    method Call(prompt: FlatPrompts.Prompt, options: Option<Options>, post: nat -> Outcome<JString, Failure>,
                parseObject: string -> Option<map<string, Json>>, interrupted: bool, interrupts: nat -> bool)
      returns (r: CallRun)
      ensures r == CallSpec(prompt, options, config, post, parseObject, interrupted, interrupts)
      ensures r.request.url == config.FullUrl()
      ensures r.posts >= 1
    {
      var o := if options.None? then Default else options.value;
      var url := config.FullUrl();
      var headers := PipelineRequest.Headers(config.apiKey);
      var body := BuildRequestBody(prompt, o, config.model, false);
      var retryCount := if o.RetryEnabledOrDefault(config.retryEnabled) then o.RetryCountOrDefault(config.retryCount) else 0;
      var retryDelay := o.RetryDelayMsOrDefault(config.retryInitialDelayMs);
      var run: RetryRun<JString>;
      if retryCount > 0 {
        run := Retry(post, retryCount, retryDelay, interrupted, interrupts);
      } else {
        run := RetryRun(post(0), 1, 0, interrupted);
      }
      var outcome: Outcome<ChatResponse, Failure>;
      if run.outcome.Threw? {
        outcome := Threw(run.outcome.error);
      } else {
        outcome := ParseResponse(run.outcome.value, parseObject);
      }
      r := CallRun(Request(url, headers, body), run.calls, run.sleeps, run.interrupted, outcome);
    }

    /** `stream`: check the callback, build the request, feed the events to a listener until the first close. */
    method Stream(prompt: FlatPrompts.Prompt, onDeltaGiven: bool, options: Option<Options>,
                  events: seq<StreamEvent>, parseObject: string -> Option<map<string, Json>>)
      returns (r: StreamRun)
      ensures r == StreamSpec(prompt, onDeltaGiven, options, config, events, parseObject)
    {
      var o := if options.None? then Default else options.value;
      if !onDeltaGiven {
        return StreamRun(None, [], Some(Threw(IllegalArgument(Some("onDelta callback must not be null")))));
      }
      var url := config.FullUrl();
      var headers := PipelineRequest.Headers(config.apiKey);
      var body := BuildRequestBody(prompt, o, config.model, true);
      var state := Listen(events, parseObject);
      var outcome := if state.closed then Some(Rethrown(state.error)) else None;
      r := StreamRun(Some(Request(url, headers, body)), state.forwarded, outcome);
    }
  }
}
