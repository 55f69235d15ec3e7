/**
 * The interceptor chain of the `me.maydeng.llmkit` generation:
 * `BaseChatModel.buildSyncChain` / `buildStreamChain`, the model's
 * `chat` / `chatStream`, the thread's `ChatContextHolder`, and the
 * `ChatModel` default methods that adapt a response or a stream to text.
 */
module PipelineChain {
  import opened Wrappers
  import opened JavaText
  import opened Json
  import opened PipelineFaults
  import opened PipelineMessages
  import opened PipelineResponse
  import opened PipelineParser
  import opened PipelineRetry
  import opened PipelinePrompt
  import opened PipelineConfig
  import opened PipelineRequest
  import opened PipelineStream
  import opened PipelineListener
  import opened PipelineClient

  /** One line of the trace a chain leaves: an interceptor entered or left, or the client called. */
  datatype Mark = Enter(id: nat) | Leave(id: nat) | ClientCalled

  /** What `SyncChain.proceed` gives: a response (possibly null) or an exception. */
  type Answer = Outcome<Option<Response>, Fault>

  /** A user's `StreamResponseListener`: its identity and when its methods throw. */
  datatype UserListener = UserListener(id: nat, user: UserCallbacks)

  /**
   * A `ChatInterceptor`, by what it does.  `intercept` enters, then either
   * calls `next` once and maps its answer with `respond`, or answers `own`
   * without calling it, and leaves.  `interceptStream` enters, calls `next`
   * (when `streamCallsNext`) with the listener `relay` makes of the one it
   * was given, and leaves.
   */
  datatype Interceptor = Interceptor(
    id: nat,
    callsNext: bool,
    respond: Answer -> Answer,
    own: Answer,
    streamCallsNext: bool,
    relay: UserListener -> UserListener)

  datatype SyncRun = SyncRun(answer: Answer, trace: seq<Mark>)

  /**
   * Where a stream chain ends: the listener the client was given, if it was
   * reached, and the exception that left `proceed`, if any.
   */
  datatype StreamRun = StreamRun(reached: Option<UserListener>, thrown: Option<Fault>, trace: seq<Mark>)

  // ---------------------------------------------------------------------
  // The chains

  function Intercept(ic: Interceptor, next: SyncRun): SyncRun {
    if ic.callsNext then SyncRun(ic.respond(next.answer), [Enter(ic.id)] + next.trace + [Leave(ic.id)])
    else SyncRun(ic.own, [Enter(ic.id), Leave(ic.id)])
  }

  /** Running `buildSyncChain(i)`; `terminal` is what `getChatClient().chat()` gives. */
  function SyncChain(ics: seq<Interceptor>, i: nat, terminal: Answer): SyncRun
    decreases |ics| - i
  {
    if i >= |ics| then SyncRun(terminal, [ClientCalled])
    else Intercept(ics[i], SyncChain(ics, i + 1, terminal))
  }

  /**
   * Running `buildStreamChain(i)` with `listener`; `escape` is what the
   * client's `chatStream` throws when it is reached.  The exception leaves
   * every `interceptStream` it passes through at once, so none of them
   * reaches its exit.
   */
  function StreamChain(ics: seq<Interceptor>, i: nat, listener: UserListener, escape: Option<Fault>): StreamRun
    decreases |ics| - i
  {
    if i >= |ics| then StreamRun(Some(listener), escape, [ClientCalled])
    else
      var ic := ics[i];
      if ic.streamCallsNext then
        var next := StreamChain(ics, i + 1, ic.relay(listener), escape);
        if next.thrown.Some? then StreamRun(next.reached, next.thrown, [Enter(ic.id)] + next.trace)
        else StreamRun(next.reached, None, [Enter(ic.id)] + next.trace + [Leave(ic.id)])
      else StreamRun(None, None, [Enter(ic.id), Leave(ic.id)])
  }

  /** Every interceptor from `i` on calls `next`. */
  predicate PassesFrom(ics: seq<Interceptor>, i: nat) {
    forall j :: i <= j < |ics| ==> ics[j].callsNext
  }

  /** The entries of interceptors `i..` in list order. */
  function Enters(ics: seq<Interceptor>, i: nat): seq<Mark>
    decreases |ics| - i
  {
    if i >= |ics| then [] else [Enter(ics[i].id)] + Enters(ics, i + 1)
  }

  /** The exits of interceptors `i..` in reverse list order. */
  function Leaves(ics: seq<Interceptor>, i: nat): seq<Mark>
    decreases |ics| - i
  {
    if i >= |ics| then [] else Leaves(ics, i + 1) + [Leave(ics[i].id)]
  }

  /** The answer `x` mapped by the `respond` of interceptors `i..`, innermost first. */
  function Respond(ics: seq<Interceptor>, i: nat, x: Answer): Answer
    decreases |ics| - i
  {
    if i >= |ics| then x else ics[i].respond(Respond(ics, i + 1, x))
  }

  /**
   * When every interceptor calls `next`, they are entered in list order,
   * the client is called once, they are left in reverse order, and each
   * maps the answer on the way out.
   */
  lemma {:induction false} OnionOrder(ics: seq<Interceptor>, i: nat, terminal: Answer)
    requires PassesFrom(ics, i)
    ensures SyncChain(ics, i, terminal) == SyncRun(Respond(ics, i, terminal), Enters(ics, i) + [ClientCalled] + Leaves(ics, i))
    decreases |ics| - i
  {
    if i < |ics| {
      assert PassesFrom(ics, i + 1);
      OnionOrder(ics, i + 1, terminal);
      var inner := Enters(ics, i + 1) + [ClientCalled] + Leaves(ics, i + 1);
      calc {
        SyncChain(ics, i, terminal).trace;
        [Enter(ics[i].id)] + inner + [Leave(ics[i].id)];
        ([Enter(ics[i].id)] + Enters(ics, i + 1)) + [ClientCalled] + (Leaves(ics, i + 1) + [Leave(ics[i].id)]);
        Enters(ics, i) + [ClientCalled] + Leaves(ics, i);
      }
    }
  }

  /** Two interceptors that act before and after `next`: A-before, B-before, client, B-after, A-after. */
  lemma TwoInterceptors(a: Interceptor, b: Interceptor, terminal: Answer)
    requires a.callsNext && b.callsNext
    ensures SyncChain([a, b], 0, terminal)
      == SyncRun(a.respond(b.respond(terminal)), [Enter(a.id), Enter(b.id), ClientCalled, Leave(b.id), Leave(a.id)])
  {
    var ics := [a, b];
    OnionOrder(ics, 0, terminal);
    assert Enters(ics, 1) == [Enter(b.id)] && Leaves(ics, 1) == [Leave(b.id)];
    assert Respond(ics, 1, terminal) == b.respond(terminal);
  }

  /** The client is called exactly when every interceptor calls `next`. */
  lemma {:induction false} ClientCalledIff(ics: seq<Interceptor>, i: nat, terminal: Answer)
    ensures ClientCalled in SyncChain(ics, i, terminal).trace <==> PassesFrom(ics, i)
    decreases |ics| - i
  {
    if i < |ics| {
      ClientCalledIff(ics, i + 1, terminal);
      var next := SyncChain(ics, i + 1, terminal);
      assert ClientCalled in [Enter(ics[i].id)] + next.trace + [Leave(ics[i].id)] <==> ClientCalled in next.trace;
      assert !PassesFrom(ics, i + 1) ==> !PassesFrom(ics, i);
      if PassesFrom(ics, i + 1) && ics[i].callsNext {
        forall j | i <= j < |ics| ensures ics[j].callsNext {
          if j > i {
            assert i + 1 <= j;
          }
        }
      }
    }
  }

  /**
   * The first interceptor that does not call `next` decides the answer:
   * its own answer, mapped by the ones before it, and the client's answer
   * plays no part.
   */
  lemma {:induction false} ShortCircuit(ics: seq<Interceptor>, i: nat, k: nat, terminal: Answer)
    requires i <= k < |ics| && !ics[k].callsNext
    requires forall j :: i <= j < k ==> ics[j].callsNext
    ensures SyncChain(ics, i, terminal).answer == Respond(ics[..k], i, ics[k].own)
    ensures SyncChain(ics, i, terminal).trace
      == Enters(ics[..k], i) + [Enter(ics[k].id), Leave(ics[k].id)] + Leaves(ics[..k], i)
    decreases k - i
  {
    if i < k {
      ShortCircuit(ics, i + 1, k, terminal);
      assert ics[..k][i] == ics[i];
    }
  }

  /** When the chain is cut short, it does not matter what the client would have answered. */
  lemma {:induction false} TerminalIgnoredWhenCut(ics: seq<Interceptor>, i: nat, t1: Answer, t2: Answer)
    requires !PassesFrom(ics, i)
    ensures SyncChain(ics, i, t1) == SyncChain(ics, i, t2)
    decreases |ics| - i
  {
    var j :| i <= j < |ics| && !ics[j].callsNext;
    if ics[i].callsNext {
      assert i + 1 <= j;
      TerminalIgnoredWhenCut(ics, i + 1, t1, t2);
    }
  }

  /** Interceptors that call `next` and pass the listener along unchanged hand the caller's listener to the client. */
  lemma {:induction false} StreamPassesListener(ics: seq<Interceptor>, i: nat, l: UserListener)
    requires forall j :: i <= j < |ics| ==> ics[j].streamCallsNext && ics[j].relay(l) == l
    ensures StreamChain(ics, i, l, None) == StreamRun(Some(l), None, Enters(ics, i) + [ClientCalled] + Leaves(ics, i))
    decreases |ics| - i
  {
    if i < |ics| {
      StreamPassesListener(ics, i + 1, l);
      assert ics[i].streamCallsNext && ics[i].relay(l) == l;
      Nest(Enter(ics[i].id), Enters(ics, i + 1), Leaves(ics, i + 1), Leave(ics[i].id));
    }
  }

  /**
   * What the client throws does not change which listener it is handed; it
   * escapes `proceed` exactly when the client is reached, and then the
   * trace holds every entry and the client call but no exit.
   */
  lemma {:induction false} EscapeSkipsExits(ics: seq<Interceptor>, i: nat, l: UserListener, f: Fault)
    ensures StreamChain(ics, i, l, Some(f)).reached == StreamChain(ics, i, l, None).reached
    ensures StreamChain(ics, i, l, None).thrown.None?
    ensures StreamChain(ics, i, l, Some(f)).thrown.Some? <==> StreamChain(ics, i, l, None).reached.Some?
    ensures StreamChain(ics, i, l, Some(f)).thrown.Some? ==>
      StreamChain(ics, i, l, Some(f)).thrown == Some(f) &&
      StreamChain(ics, i, l, Some(f)).trace == Enters(ics, i) + [ClientCalled]
    decreases |ics| - i
  {
    if i < |ics| && ics[i].streamCallsNext {
      EscapeSkipsExits(ics, i + 1, ics[i].relay(l), f);
    }
  }

  /** One more layer around the client call: the regrouping both chains' traces need. */
  lemma Nest(enter: Mark, enters: seq<Mark>, leaves: seq<Mark>, leave: Mark)
    ensures [enter] + (enters + [ClientCalled] + leaves) + [leave]
      == ([enter] + enters) + [ClientCalled] + (leaves + [leave])
  {
  }

  /** The stream chain has the sync chain's shape: where the interceptors make the same call decisions, the traces agree. */
  lemma {:induction false} StreamShapeMatchesSync(ics: seq<Interceptor>, i: nat, l: UserListener, terminal: Answer)
    requires forall j :: i <= j < |ics| ==> ics[j].streamCallsNext == ics[j].callsNext
    ensures StreamChain(ics, i, l, None).trace == SyncChain(ics, i, terminal).trace
    ensures StreamChain(ics, i, l, None).reached.Some? <==> PassesFrom(ics, i)
    decreases |ics| - i
  {
    if i < |ics| {
      StreamShapeMatchesSync(ics, i + 1, ics[i].relay(l), terminal);
      EscapeSkipsExits(ics, i + 1, ics[i].relay(l), MalformedJson);
      ClientCalledIff(ics, i, terminal);
      ClientCalledIff(ics, i + 1, terminal);
      if !ics[i].callsNext {
        assert !PassesFrom(ics, i);
      }
    }
  }

  // ---------------------------------------------------------------------
  // The thread's chat context

  /** What `ChatContextHolder.beginChat` records: the context's identity, the options and the request. */
  datatype ChatContext = ChatContext(id: nat, options: Options, request: RequestSpec)

  /** The thread-local slot of `ChatContextHolder`. */
  class ChatContextHolder {
    var current: Option<ChatContext>

    constructor ()
      ensures current.None?
    {
      current := None;
    }

    method BeginChat(c: ChatContext)
      modifies this
      ensures current == Some(c)
    {
      current := Some(c);
    }

    /** `clear()`, which closing the scope runs. */
    method Clear()
      modifies this
      ensures current.None?
    {
      current := None;
    }
  }

  // ---------------------------------------------------------------------
  // The model

  /** What the client's `chatStream` throws: the failure of its last start attempt, if it was called. */
  function Escape(run: Option<RetryRun<()>>): (f: Option<Fault>)
    ensures f.Some? <==> run.Some? && run.value.outcome.Threw?
  {
    if run.Some? && run.value.outcome.Threw? then Some(run.value.outcome.error) else None
  }

  /** A client answer as the chain passes it on: never null. */
  function Lift(r: Outcome<Response, Fault>): (a: Answer)
    ensures a.Returned? <==> r.Returned?
    ensures r.Returned? ==> a.value == Some(r.value)
    ensures r.Threw? ==> a.error == r.error
  {
    match r
    case Returned(v) => Returned(Some(v))
    case Threw(e) => Threw(e)
  }

  /** The options a call runs with: the caller's, or fresh defaults for null, with `streaming` forced. */
  function Effective(given: Option<Options>, streaming: bool): (o: Options)
    ensures given.Some? ==> o == given.value.(streaming := streaming)
    ensures given.None? ==> o == DefaultOptions.(streaming := streaming)
  {
    given.GetOr(DefaultOptions).(streaming := streaming)
  }

  class BaseChatModel {
    const config: ChatConfig
    const client: OpenAIChatClient
    var interceptors: seq<Interceptor>

    /** The user's list is copied; null means none. */
    constructor (config: ChatConfig, client: OpenAIChatClient, userInterceptors: Option<seq<Interceptor>>)
      ensures this.config == config && this.client == client
      ensures interceptors == userInterceptors.GetOr([])
    {
      this.config, this.client := config, client;
      interceptors := [];
      if userInterceptors.Some? {
        interceptors := interceptors + userInterceptors.value;
      }
    }

    /** `addInterceptor`: a non-null interceptor goes after all existing ones; null is ignored. */
    method AddInterceptor(ic: Option<Interceptor>)
      modifies this`interceptors
      ensures ic.None? ==> interceptors == old(interceptors)
      ensures ic.Some? ==> interceptors == old(interceptors) + [ic.value]
    {
      if ic.Some? {
        interceptors := interceptors + [ic.value];
      }
    }

    /**
     * `chat(prompt, options)`: defaults for null options, `streaming` forced
     * off, the request built once before the context opens, the chain run
     * (the client called only if every interceptor calls `next`), and the
     * context cleared afterwards.
     */
    method Chat(prompt: SimplePrompt, options: ChatOptions?, holder: ChatContextHolder, contextId: nat,
                post: nat -> Outcome<JString, Fault>, parseJson: string -> Option<map<string, Json>>,
                interrupted: bool, interrupts: nat -> bool)
      returns (r: SyncRun)
      modifies options, holder, client`httpClient, client`aiMessageParser
      ensures holder.current.None?
      ensures options != null ==> options.Value() == old(options.Value()).(streaming := false)
      ensures var o := Effective(if options == null then None else Some(old(options.Value())), false);
        r == SyncChain(interceptors, 0,
                       Lift(ChatOutcome(contextId, RequestOf(prompt.Messages(), o, config),
                                        old(client.aiMessageParser).GetOr(OpenAIParser()), false,
                                        post, parseJson, interrupted, interrupts)))
    {
      var opts := options;
      if opts == null {
        opts := new ChatOptions();
      }
      opts.SetStreaming(false);
      var request := BuildRequest(prompt, opts, config);
      holder.BeginChat(ChatContext(contextId, opts.Value(), request));
      var context := holder.current.value;
      ghost var parser := client.aiMessageParser.GetOr(OpenAIParser());
      ghost var expected := Lift(ChatOutcome(contextId, context.request, parser, false, post, parseJson, interrupted, interrupts));
      var terminal: Answer;
      if PassesFrom(interceptors, 0) {
        var out := client.Chat(contextId, context.request, context.options.streaming, post, parseJson, interrupted, interrupts);
        terminal := Lift(out);
      } else {
        terminal := Threw(Runtime(None));
        TerminalIgnoredWhenCut(interceptors, 0, terminal, expected);
      }
      r := SyncChain(interceptors, 0, terminal);
      holder.Clear();
    }

    /**
     * `chatStream(prompt, listener, options)`: as `chat`, with `streaming`
     * forced on; if the chain reaches the client, its `chatStream` runs
     * with the listener the chain hands it.  A start that still fails (after
     * the retries, if any) throws out of the client, through every
     * interceptor and out of this method; `r` is what the caller sees.
     */
    method ChatStream(prompt: SimplePrompt, listener: UserListener, options: ChatOptions?, holder: ChatContextHolder,
                      contextId: nat, streamClient: nat, start: nat -> Outcome<(), Fault>, events: nat -> seq<Event>,
                      interrupted: bool, interrupts: nat -> bool)
      returns (r: Outcome<(), Fault>, chain: StreamRun, sink: StreamListener?, run: Option<RetryRun<()>>)
      modifies options, holder, client`aiMessageParser
      ensures holder.current.None?
      ensures options != null ==> options.Value() == old(options.Value()).(streaming := true)
      ensures chain == StreamChain(interceptors, 0, listener, Escape(run))
      ensures chain.thrown.None? <==> r == Returned(())
      ensures chain.thrown.Some? ==> r == Threw(chain.thrown.value)
      ensures chain.reached.None? <==> sink == null
      ensures chain.reached.None? <==> run.None?
      ensures chain.reached.Some? ==>
        (fresh(sink) &&
         var o := Effective(if options == null then None else Some(old(options.Value())), true);
         var setup := Setup(contextId, true, old(client.aiMessageParser).GetOr(OpenAIParser()), chain.reached.value.user);
         (sink.Abs(), run.value) == StreamOutcome(setup, RequestOf(prompt.Messages(), o, config), start, events,
                                                  interrupted, interrupts))
    {
      var opts := options;
      if opts == null {
        opts := new ChatOptions();
      }
      opts.SetStreaming(true);
      var request := BuildRequest(prompt, opts, config);
      holder.BeginChat(ChatContext(contextId, opts.Value(), request));
      var context := holder.current.value;
      var reached := StreamChain(interceptors, 0, listener, None).reached;
      sink, run := null, None;
      if reached.Some? {
        var l, attempts := client.ChatStream(contextId, streamClient, context.options.streaming, reached.value.user,
                                             context.request, start, events, interrupted, interrupts);
        sink, run := l, Some(attempts);
        if attempts.outcome.Threw? {
          EscapeSkipsExits(interceptors, 0, listener, attempts.outcome.error);
        }
      }
      chain := StreamChain(interceptors, 0, listener, Escape(run));
      r := if chain.thrown.Some? then Threw(chain.thrown.value) else Returned(());
      holder.Clear();
    }

    /**
     * `chatStream(prompt, onDelta, options)`: a null callback is refused;
     * otherwise the stream runs with the adapter listener (identity
     * `adapterId`) in place of a user listener, and what it throws is thrown.
     */
    method ChatStreamDeltas(prompt: SimplePrompt, onDelta: Option<string -> bool>, adapterId: nat, options: ChatOptions?,
                            holder: ChatContextHolder, contextId: nat, streamClient: nat,
                            start: nat -> Outcome<(), Fault>, events: nat -> seq<Event>,
                            interrupted: bool, interrupts: nat -> bool)
      returns (r: Outcome<(), Fault>, chain: Option<StreamRun>, sink: StreamListener?, run: Option<RetryRun<()>>)
      modifies options, holder, client`aiMessageParser
      ensures onDelta.None? ==> r == Threw(IllegalArgument("onDelta must not be null")) && chain.None? && sink == null
      ensures onDelta.Some? ==>
        chain == Some(StreamChain(interceptors, 0, DeltaAdapter(adapterId, onDelta.value), Escape(run))) &&
        (r == Returned(()) <==> chain.value.thrown.None?) &&
        (chain.value.thrown.Some? ==> r == Threw(chain.value.thrown.value))
    {
      var adapter := AdaptDelta(adapterId, onDelta);
      if adapter.Threw? {
        return Threw(adapter.error), None, null, None;
      }
      var c;
      r, c, sink, run := ChatStream(prompt, adapter.value, options, holder, contextId, streamClient, start, events,
                                    interrupted, interrupts);
      chain := Some(c);
    }

    /** `chat(String, options)`: the text as the one user message, and the response read as text. */
    method ChatText(text: JString, options: ChatOptions?, holder: ChatContextHolder, contextId: nat,
                    post: nat -> Outcome<JString, Fault>, parseJson: string -> Option<map<string, Json>>,
                    interrupted: bool, interrupts: nat -> bool)
      returns (r: Outcome<JString, Fault>)
      modifies options, holder, client`httpClient, client`aiMessageParser
      ensures var o := Effective(if options == null then None else Some(old(options.Value())), false);
        r == TextOf(SyncChain(interceptors, 0,
                              Lift(ChatOutcome(contextId, RequestOf([Message(UserKind, text)], o, config),
                                               old(client.aiMessageParser).GetOr(OpenAIParser()), false,
                                               post, parseJson, interrupted, interrupts))).answer)
    {
      var prompt := new SimplePrompt.WithContent(text);
      assert prompt.Messages() == [Message(UserKind, text)];
      var run := Chat(prompt, options, holder, contextId, post, parseJson, interrupted, interrupts);
      r := TextOf(run.answer);
    }
  }

  // ---------------------------------------------------------------------
  // The `ChatModel` default methods

  /**
   * The text `chat(String, options)` returns: an error response becomes a
   * `RuntimeException` with its error message; otherwise the message's
   * content, or null when the response or its message is null.
   */
  function TextOf(a: Answer): Outcome<JString, Fault> {
    match a
    case Threw(e) => Threw(e)
    case Returned(None) => Returned(None)
    case Returned(Some(resp)) =>
      if resp.isError then Threw(Runtime(resp.errorMessage))
      else if resp.message.None? then Returned(None)
      else Returned(resp.message.value.content)
  }

  /** Read through the two response factories: an error response throws its message, a plain one yields its content. */
  lemma TextOfResponses(context: nat, raw: JString, m: AiSnap, errorMessage: JString)
    ensures TextOf(Returned(Some(ErrorResponse(context, raw, errorMessage)))) == Threw(Runtime(errorMessage))
    ensures TextOf(Returned(Some(NewResponse(context, raw, Some(m))))) == Returned(m.content)
    ensures TextOf(Returned(Some(NewResponse(context, raw, None)))) == Returned(None)
  {
  }

  /** The strings the `onDelta` adapter forwards for a sequence of notifications. */
  predicate Forwards(n: Note) {
    n.Delivered? && n.response.message.Some? && n.response.message.value.content.Some?
  }

  function Forwarded(ns: seq<Note>): seq<string> {
    if ns == [] then []
    else
      var last := ns[|ns| - 1];
      Forwarded(ns[..|ns| - 1]) + (if Forwards(last) then [last.response.message.value.content.value] else [])
  }

  /** The non-null contents of the delta messages handed over, one per delta, in order. */
  function DeltaList(ns: seq<Note>): seq<string> {
    if ns == [] then []
    else
      var last := ns[|ns| - 1];
      DeltaList(ns[..|ns| - 1])
        + (if IsDelta(last) && last.response.message.value.content.Some? then [last.response.message.value.content.value] else [])
  }

  function Concat(ss: seq<string>): string {
    if ss == [] then "" else Concat(ss[..|ss| - 1]) + ss[|ss| - 1]
  }

  /**
   * The adapter forwards the content of each delta message, one string per
   * delta and in order, and nothing else; concatenated, that is exactly the
   * delta text the listener handed over.  The final aggregate message (null
   * content) is never forwarded.
   */
  lemma {:induction false} ForwardedIsDeltas(ns: seq<Note>)
    requires FinalsShaped(ns)
    ensures Forwarded(ns) == DeltaList(ns)
    ensures Concat(Forwarded(ns)) == Deltas(ns)
    ensures forall i :: 0 <= i < |ns| && IsFinal(ns[i]) ==> !Forwards(ns[i])
    decreases |ns|
  {
    if ns != [] {
      var init := ns[..|ns| - 1];
      var last := ns[|ns| - 1];
      forall i | 0 <= i < |init| && IsFinal(init[i])
        ensures init[i].response.message.value.content.None? && Stops(init[..i]) == 0
      {
        assert init[i] == ns[i] && init[..i] == ns[..i];
      }
      ForwardedIsDeltas(init);
      var extra := if Forwards(last) then [last.response.message.value.content.value] else [];
      assert Forwarded(ns) == Forwarded(init) + extra;
      if IsFinal(last) {
        assert ns[|ns| - 1] == last;
      }
      assert Forwards(last) <==> IsDelta(last) && last.response.message.value.content.Some?;
      assert DeltaList(ns) == DeltaList(init) + extra;
      if Forwards(last) {
        assert (Forwarded(init) + extra)[..|Forwarded(init) + extra| - 1] == Forwarded(init);
      } else {
        assert Forwarded(ns) == Forwarded(init);
      }
    }
  }

  /** Over a whole stream, the adapter forwards the deltas, in order, and nothing else. */
  lemma AdapterForwardsDeltas(s: Setup, events: seq<Event>)
    ensures Forwarded(Run(s, Initial, events).notes) == DeltaList(Run(s, Initial, events).notes)
    ensures Concat(Forwarded(Run(s, Initial, events).notes)) == Deltas(Run(s, Initial, events).notes)
  {
    RunKeeps(s, Initial, events);
    ForwardedIsDeltas(Run(s, Initial, events).notes);
  }

  /**
   * The adapter listener: its `onMessage` throws exactly when it forwards a
   * content the callback throws on; it keeps the interface's `onStart`,
   * `onFailure` and `onStop`, which never throw.
   */
  function DeltaAdapter(id: nat, onDeltaThrows: string -> bool): (l: UserListener)
    ensures l.id == id
    ensures !l.user.startThrows
    ensures forall t :: !l.user.failureThrows(t)
    ensures forall m :: !l.user.stopThrows(m)
    ensures forall r: Response :: l.user.rejects(r) <==>
      r.message.Some? && r.message.value.content.Some? && onDeltaThrows(r.message.value.content.value)
  {
    UserListener(id, UserCallbacks(
      (resp: Response) => resp.message.Some? && resp.message.value.content.Some? && onDeltaThrows(resp.message.value.content.value),
      false,
      (t: Option<Fault>) => false,
      (m: AiSnap) => false))
  }

  /** `chatStream(prompt, onDelta, options)` refuses a null callback before anything runs. */
  function AdaptDelta(id: nat, onDelta: Option<string -> bool>): (r: Outcome<UserListener, Fault>)
    ensures onDelta.None? <==> r == Threw(IllegalArgument("onDelta must not be null"))
    ensures onDelta.Some? ==> r == Returned(DeltaAdapter(id, onDelta.value))
  {
    if onDelta.None? then Threw(IllegalArgument("onDelta must not be null"))
    else Returned(DeltaAdapter(id, onDelta.value))
  }
}
