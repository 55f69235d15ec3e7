/**
 * `OpenAIChatClient` of the `me.maydeng.llmkit` generation: the innermost
 * layer of the interceptor chain.  The HTTP client's `post` is a total
 * function giving what its k-th call returns or throws; `JSON.parseObject`
 * is a function from text to an object, `None` when the text is not one.
 */
module PipelineClient {
  import opened Wrappers
  import opened JavaText
  import opened Json
  import opened PipelineStrings
  import opened PipelineFaults
  import opened PipelineResponse
  import opened PipelineParser
  import opened PipelineRetry
  import opened PipelineRequest
  import opened PipelineStream
  import opened PipelineListener

  /** The one call `chat` and `chatStream` make: through `Retryer.retry` when the spec allows retries, else once. */
  function Attempt<T>(spec: RequestSpec, call: nat -> Outcome<T, Fault>, interrupted: bool,
                      interrupts: nat -> bool): RetryRun<T>
  {
    if spec.retryCount > 0 then RetrySpec(call, spec.retryCount, spec.retryInitialDelayMs, interrupted, interrupts)
    else RetryRun(call(0), 1, 0, interrupted)
  }

  /** Without retries the call is made once and what it throws reaches the caller unwrapped. */
  lemma NoRetryCallsOnce<T>(spec: RequestSpec, call: nat -> Outcome<T, Fault>, interrupted: bool,
                            interrupts: nat -> bool)
    requires spec.retryCount <= 0
    ensures var r := Attempt(spec, call, interrupted, interrupts);
      r.calls == 1 && r.sleeps == 0 && r.outcome == call(0)
  {
  }

  /** With retries, the first success among the first `retryCount + 1` calls is what the caller gets. */
  lemma RetryReturnsFirstSuccess<T>(spec: RequestSpec, call: nat -> Outcome<T, Fault>, interrupted: bool,
                                    interrupts: nat -> bool, n: nat)
    requires spec.retryCount > 0 && n <= spec.retryCount && call(n).Returned?
    requires forall j :: 0 <= j < n ==> call(j).Threw?
    ensures var r := Attempt(spec, call, interrupted, interrupts);
      r.calls == n + 1 && r.outcome == call(n)
  {
    FirstSuccessReturned(call, spec.retryCount, n);
  }

  /** With retries and nothing but failures, `retryCount + 1` calls are made and the last failure comes back wrapped. */
  lemma RetryWrapsLastFailure<T>(spec: RequestSpec, call: nat -> Outcome<T, Fault>, interrupted: bool,
                                 interrupts: nat -> bool)
    requires spec.retryCount > 0
    requires forall j :: 0 <= j <= spec.retryCount ==> call(j).Threw?
    ensures var r := Attempt(spec, call, interrupted, interrupts);
      r.calls == spec.retryCount + 1 && r.outcome == Threw(Wrapped(call(spec.retryCount).error))
  {
    AllFailuresExhaustBudget(call, spec.retryCount);
  }

  /**
   * `parseResponse` on a body with text: a non-empty `error` object gives an
   * error response carrying `error.message`; anything else gives the
   * parser's message.  An `error` string is read as JSON text, "" and
   * "null" counting as no error.  Text that is not an object (the body, or
   * an `error` string) escapes as a JSON exception; an `error` member of
   * another kind, or a parser failure, escapes as well.
   */
  function ResponseOf(context: nat, text: string, parseJson: string -> Option<map<string, Json>>,
                      parser: Parser, streaming: bool): (r: Outcome<Response, Fault>)
    ensures r.Returned? ==> WellFormed(r.value) && r.value.context == context && r.value.rawText == Some(text)
  {
    match parseJson(text)
    case None => Threw(MalformedJson)
    case Some(root) =>
      match ObjectMember(root, "error", parseJson)
      case Threw(Unparsable) => Threw(MalformedJson)
      case Threw(WrongKind) => Threw(ClassCast)
      case Returned(error) =>
        if error.Some? && error.value != map[] then
          Returned(ErrorResponse(context, Some(text), StringMember(error.value, "message")))
        else
          match Parse(parser, streaming, root)
          case Threw(f) => Threw(f)
          case Returned(m) => Returned(NewResponse(context, Some(text), Some(m)))
  }

  /** `chat()`: post (perhaps with retries), then classify the body. */
  function ChatOutcome(context: nat, spec: RequestSpec, parser: Parser, streaming: bool,
                       post: nat -> Outcome<JString, Fault>, parseJson: string -> Option<map<string, Json>>,
                       interrupted: bool, interrupts: nat -> bool): (r: Outcome<Response, Fault>)
    ensures r.Returned? ==> WellFormed(r.value) && r.value.context == context
  {
    match Attempt(spec, post, interrupted, interrupts).outcome
    case Threw(f) => Threw(f)
    case Returned(body) =>
      if NoText(body) then Returned(ErrorResponse(context, body, Some("empty response")))
      else ResponseOf(context, body.value, parseJson, parser, streaming)
  }

  /** What the post throws (after retries) is what `chat` throws. */
  lemma TransportFailurePropagates(context: nat, spec: RequestSpec, parser: Parser, streaming: bool,
                                   post: nat -> Outcome<JString, Fault>,
                                   parseJson: string -> Option<map<string, Json>>,
                                   interrupted: bool, interrupts: nat -> bool)
    requires Attempt(spec, post, interrupted, interrupts).outcome.Threw?
    ensures ChatOutcome(context, spec, parser, streaming, post, parseJson, interrupted, interrupts)
      == Threw(Attempt(spec, post, interrupted, interrupts).outcome.error)
  {
  }

  /** A body with no text is an "empty response" error with no message. */
  lemma EmptyBodyIsError(context: nat, spec: RequestSpec, parser: Parser, streaming: bool,
                         post: nat -> Outcome<JString, Fault>,
                         parseJson: string -> Option<map<string, Json>>,
                         interrupted: bool, interrupts: nat -> bool)
    requires Attempt(spec, post, interrupted, interrupts).outcome.Returned?
    requires !HasText(Attempt(spec, post, interrupted, interrupts).outcome.value)
    ensures var r := ChatOutcome(context, spec, parser, streaming, post, parseJson, interrupted, interrupts);
      && r.Returned? && r.value.isError && r.value.message.None?
      && r.value.errorMessage == Some("empty response")
      && r.value.rawText == Attempt(spec, post, interrupted, interrupts).outcome.value
  {
  }

  /** A body whose `error` member is a non-empty object is a provider error carrying `error.message`. */
  lemma ProviderErrorCarriesMessage(context: nat, text: string, parseJson: string -> Option<map<string, Json>>,
                                    parser: Parser, streaming: bool, root: map<string, Json>,
                                    error: map<string, Json>)
    requires parseJson(text) == Some(root)
    requires "error" in root && root["error"] == JObject(error) && error != map[]
    ensures var r := ResponseOf(context, text, parseJson, parser, streaming);
      && r.Returned? && r.value.isError && r.value.message.None?
      && r.value.errorMessage == StringMember(error, "message")
      && r.value.rawText == Some(text)
  {
  }

  /**
   * An `error` string is JSON text: when it parses to a non-empty object
   * that object is the error, and when it does not parse the JSON
   * exception escapes.
   */
  lemma ErrorTextParsed(context: nat, text: string, parseJson: string -> Option<map<string, Json>>,
                        parser: Parser, streaming: bool, root: map<string, Json>, s: string)
    requires parseJson(text) == Some(root)
    requires "error" in root && root["error"] == JString(s) && !NullText(s)
    ensures var r := ResponseOf(context, text, parseJson, parser, streaming);
      && (parseJson(s).None? ==> r == Threw(MalformedJson))
      && (parseJson(s).Some? && parseJson(s).value != map[] ==>
            r == Returned(ErrorResponse(context, Some(text), StringMember(parseJson(s).value, "message"))))
  {
  }

  /**
   * Without an error object (absent, null, `{}`, or the text "" or "null"),
   * the response is the parser's message with the body as raw text.
   */
  lemma SuccessCarriesParsedMessage(context: nat, text: string, parseJson: string -> Option<map<string, Json>>,
                                    parser: Parser, streaming: bool, root: map<string, Json>)
    requires parseJson(text) == Some(root)
    requires "error" !in root || root["error"] == JNull || root["error"] == JObject(map[])
      || (root["error"].JString? && NullText(root["error"].s))
    requires Parse(parser, streaming, root).Returned?
    ensures ResponseOf(context, text, parseJson, parser, streaming)
      == Returned(NewResponse(context, Some(text), Some(Parse(parser, streaming, root).value)))
  {
  }

  /** The events the transport delivers over the first `n` calls of `start`, in order. */
  function Attempts(events: nat -> seq<Event>, n: nat): seq<Event> {
    if n == 0 then [] else Attempts(events, n - 1) + events(n - 1)
  }

  /**
   * `chatStream`: one listener for the whole call; every attempt of `start`
   * feeds its events to it.
   */
  function StreamOutcome(setup: Setup, spec: RequestSpec, start: nat -> Outcome<(), Fault>,
                         events: nat -> seq<Event>, interrupted: bool, interrupts: nat -> bool): (Agg, RetryRun<()>)
  {
    var run := Attempt(spec, start, interrupted, interrupts);
    (Run(setup, Initial, Attempts(events, run.calls)), run)
  }

  /** However many times `start` is retried, the user's `onStop` and final message each come at most once. */
  lemma StreamStopsOnceAcrossRetries(setup: Setup, spec: RequestSpec, start: nat -> Outcome<(), Fault>,
                                     events: nat -> seq<Event>, interrupted: bool, interrupts: nat -> bool)
    ensures var a := StreamOutcome(setup, spec, start, events, interrupted, interrupts).0;
      Stops(a.notes) <= 1 && Finals(a.notes) <= 1
  {
    var run := Attempt(spec, start, interrupted, interrupts);
    StopAtMostOnce(setup, Attempts(events, run.calls));
    FinalAtMostOnce(setup, Attempts(events, run.calls));
  }

  /** Without retries, the listener sees exactly the events of the single `start`. */
  lemma StreamWithoutRetryStartsOnce(setup: Setup, spec: RequestSpec, start: nat -> Outcome<(), Fault>,
                                     events: nat -> seq<Event>, interrupted: bool, interrupts: nat -> bool)
    requires spec.retryCount <= 0
    ensures var (a, run) := StreamOutcome(setup, spec, start, events, interrupted, interrupts);
      run.calls == 1 && run.outcome == start(0) && a == Run(setup, Initial, events(0))
  {
    assert Attempts(events, 1) == events(0);
  }

  /** The HTTP client, by identity. */
  class HttpClient {
    constructor ()
    {
    }
  }

  class OpenAIChatClient {
    /** The owning chat model, by identity. */
    const chatModel: nat
    var httpClient: HttpClient?
    var aiMessageParser: Option<Parser>

    constructor (chatModel: nat)
      ensures this.chatModel == chatModel && httpClient == null && aiMessageParser.None?
    {
      this.chatModel := chatModel;
      httpClient, aiMessageParser := null, None;
    }

    /** `getHttpClient`: created on the first call, the same instance afterwards. */
    method GetHttpClient() returns (h: HttpClient)
      modifies this`httpClient
      ensures old(httpClient) != null ==> h == old(httpClient)
      ensures old(httpClient) == null ==> fresh(h)
      ensures httpClient == h
    {
      if httpClient == null {
        httpClient := new HttpClient();
      }
      h := httpClient;
    }

    method SetHttpClient(h: HttpClient?)
      modifies this`httpClient
      ensures httpClient == h
    {
      httpClient := h;
    }

    /** `getAiMessageParser`: the OpenAI parser on the first call unless one was set, the same one afterwards. */
    method GetAiMessageParser() returns (p: Parser)
      modifies this`aiMessageParser
      ensures p == old(aiMessageParser).GetOr(OpenAIParser())
      ensures aiMessageParser == Some(p)
    {
      if aiMessageParser.None? {
        aiMessageParser := Some(OpenAIParser());
      }
      p := aiMessageParser.value;
    }

    method SetAiMessageParser(p: Option<Parser>)
      modifies this`aiMessageParser
      ensures aiMessageParser == p
    {
      aiMessageParser := p;
    }

    /** `parseResponse`: the parser is only fetched once the body has passed the error check. */
    method ParseResponse(context: nat, text: string, parseJson: string -> Option<map<string, Json>>, streaming: bool)
      returns (r: Outcome<Response, Fault>)
      modifies this`aiMessageParser
      ensures r == ResponseOf(context, text, parseJson, old(aiMessageParser).GetOr(OpenAIParser()), streaming)
      ensures aiMessageParser == old(aiMessageParser)
        || (old(aiMessageParser).None? && aiMessageParser == Some(OpenAIParser()))
    {
      var json := parseJson(text);
      if json.None? {
        return Threw(MalformedJson);
      }
      var error := ObjectMember(json.value, "error", parseJson);
      if error.Threw? {
        return Threw(if error.error == Unparsable then MalformedJson else ClassCast);
      }
      if error.value.Some? && error.value.value != map[] {
        return Returned(ErrorResponse(context, Some(text), StringMember(error.value.value, "message")));
      }
      var parser := GetAiMessageParser();
      var m := Parse(parser, streaming, json.value);
      if m.Threw? {
        return Threw(m.error);
      }
      r := Returned(NewResponse(context, Some(text), Some(m.value)));
    }

    /** `chat()` against the request spec of the current chat context. */
    method Chat(context: nat, spec: RequestSpec, streaming: bool, post: nat -> Outcome<JString, Fault>,
                parseJson: string -> Option<map<string, Json>>, interrupted: bool, interrupts: nat -> bool)
      returns (r: Outcome<Response, Fault>)
      modifies this`httpClient, this`aiMessageParser
      ensures r == ChatOutcome(context, spec, old(aiMessageParser).GetOr(OpenAIParser()), streaming,
                               post, parseJson, interrupted, interrupts)
      ensures httpClient != null && (old(httpClient) != null ==> httpClient == old(httpClient))
      ensures aiMessageParser == old(aiMessageParser)
        || (old(aiMessageParser).None? && aiMessageParser == Some(OpenAIParser()))
    {
      var h := GetHttpClient();
      var run: RetryRun<JString>;
      if spec.retryCount > 0 {
        run := Retry(post, spec.retryCount, spec.retryInitialDelayMs, interrupted, interrupts);
      } else {
        run := RetryRun(post(0), 1, 0, interrupted);
      }
      if run.outcome.Threw? {
        return Threw(run.outcome.error);
      }
      var body := run.outcome.value;
      if NoText(body) {
        return Returned(ErrorResponse(context, body, Some("empty response")));
      }
      r := ParseResponse(context, body.value, parseJson, streaming);
    }

    /**
     * `chatStream(listener)`: a fresh stream client (by identity
     * `streamClient`) and a fresh listener, and `start` retried when the
     * spec allows.
     */
    method ChatStream(chatContext: nat, streamClient: nat, streaming: bool, user: UserCallbacks,
                      spec: RequestSpec, start: nat -> Outcome<(), Fault>, events: nat -> seq<Event>,
                      interrupted: bool, interrupts: nat -> bool)
      returns (listener: StreamListener, run: RetryRun<()>)
      modifies this`aiMessageParser
      ensures fresh(listener) && fresh(listener.context) && fresh(listener.fullMessage)
      ensures listener.setup == Setup(chatContext, streaming, old(aiMessageParser).GetOr(OpenAIParser()), user)
      ensures (listener.Abs(), run)
        == StreamOutcome(listener.setup, spec, start, events, interrupted, interrupts)
    {
      var parser := GetAiMessageParser();
      listener := new StreamListener(chatModel, streamClient, Setup(chatContext, streaming, parser, user));
      if spec.retryCount > 0 {
        run := RetryRunnable(start, spec.retryCount, spec.retryInitialDelayMs, interrupted, interrupts);
      } else {
        run := RetryRun(start(0), 1, 0, interrupted);
      }
      listener.Drive(Attempts(events, run.calls));
    }
  }
}
