/**
 * `BaseStreamClientListener` as an object: two flags, the growing
 * `fullMessage` and a `StreamContext`.  Every method is proved to move the
 * abstract state `Abs()` exactly as the function of the same name in
 * `PipelineStream` says, so the properties proved there hold of the object.
 */
module PipelineListener {
  import opened Wrappers
  import opened JavaText
  import opened Json
  import opened PipelineStrings
  import opened PipelineFaults
  import opened PipelineMessages
  import opened PipelineResponse
  import opened PipelineParser
  import opened PipelineContext
  import opened PipelineStream

  class StreamListener {
    const setup: Setup
    const context: StreamContext
    const fullMessage: AiMessage
    var finishedFlag: bool
    var stoppedFlag: bool
    /** Every call made so far into the user's `StreamResponseListener`. */
    var notes: seq<Note>

    /** The context only ever holds this listener's own message. */
    ghost predicate Valid()
      reads this, context
    {
      context.aiMessage == null || context.aiMessage == fullMessage
    }

    function Abs(): Agg
      reads this, fullMessage, context
    {
      Agg(fullMessage.Snapshot(), finishedFlag, stoppedFlag, context.aiMessage != null, context.throwable, notes)
    }

    constructor (chatModel: nat, client: nat, setup: Setup)
      ensures Valid() && Abs() == Initial && this.setup == setup
      ensures fresh(context) && fresh(fullMessage)
      ensures context.chatModel == chatModel && context.chatContext == setup.chatContext && context.client == client
    {
      this.setup := setup;
      context := new StreamContext(chatModel, setup.chatContext, client);
      fullMessage := new AiMessage();
      finishedFlag, stoppedFlag, notes := false, false, [];
    }

    /** The user's `onMessage(context, resp)`. */
    method Deliver(resp: Response) returns (escaped: Option<Fault>)
      modifies this`notes
      ensures Reaction(Abs(), escaped) == PipelineStream.Deliver(setup, old(Abs()), resp)
    {
      notes := notes + [Delivered(resp)];
      escaped := if setup.user.rejects(resp) then Some(ListenerThrew) else None;
    }

    method OnStart() returns (escaped: Option<Fault>)
      modifies this`notes
      ensures Reaction(Abs(), escaped) == PipelineStream.OnStart(setup, old(Abs()))
    {
      notes := notes + [Started];
      escaped := if setup.user.startThrows then Some(ListenerThrew) else None;
    }

    method NotifyLastMessage(raw: JString) returns (escaped: Option<Fault>)
      modifies this`finishedFlag, this`notes, fullMessage
      ensures Reaction(Abs(), escaped) == NotifyLast(setup, old(Abs()), raw)
    {
      escaped := None;
      if !finishedFlag {
        finishedFlag := true;
        fullMessage.SetFullContent(fullMessage.content);
        fullMessage.SetContent(None);
        fullMessage.SetFinished(true);
        escaped := Deliver(NewResponse(setup.chatContext, raw, Some(fullMessage.Snapshot())));
      }
    }

    /**
     * The `finally` block shared by `notifyLastMessageAndStop` and `onStop`;
     * `thrown` is what the user's `onStop` throws.
     */
    method StopIfFirst() returns (thrown: bool)
      requires Valid()
      modifies this`stoppedFlag, this`notes, context`aiMessage
      ensures Valid() && Abs() == StopOnce(old(Abs()))
      ensures thrown <==> !old(stoppedFlag) && setup.user.stopThrows(old(Abs()).message)
    {
      thrown := false;
      if !stoppedFlag {
        stoppedFlag := true;
        context.SetAiMessage(fullMessage);
        notes := notes + [Stopped(fullMessage.Snapshot())];
        thrown := setup.user.stopThrows(fullMessage.Snapshot());
      }
    }

    method NotifyLastMessageAndStop(raw: JString) returns (escaped: Option<Fault>)
      requires Valid()
      modifies this`finishedFlag, this`stoppedFlag, this`notes, fullMessage, context`aiMessage
      ensures Valid() && Reaction(Abs(), escaped) == Terminate(setup, old(Abs()), raw)
    {
      escaped := NotifyLastMessage(raw);
      var stopThrew := StopIfFirst();
      if stopThrew {
        escaped := Some(ListenerThrew);
      }
    }

    method OnStop() returns (escaped: Option<Fault>)
      requires Valid()
      modifies this`finishedFlag, this`stoppedFlag, this`notes, fullMessage, context`aiMessage
      ensures Valid() && Reaction(Abs(), escaped) == PipelineStream.OnStop(setup, old(Abs()))
    {
      escaped := NotifyLastMessageAndStop(None);
    }

    method OnFailure(t: Option<Fault>) returns (escaped: Option<Fault>)
      modifies this`notes, context`throwable
      ensures Reaction(Abs(), escaped) == PipelineStream.OnFailure(setup, old(Abs()), t)
    {
      context.SetThrowable(t);
      notes := notes + [Failed(t)];
      escaped := if setup.user.failureThrows(t) then Some(ListenerThrew) else None;
    }

    /**
     * The `catch` of `onMessage`: the user's `onFailure`, then this
     * listener's `onStop`, which a throwing `onFailure` skips.
     */
    method FailThenStop(f: Fault) returns (escaped: Option<Fault>)
      requires Valid()
      modifies this`finishedFlag, this`stoppedFlag, this`notes, fullMessage, context`aiMessage
      ensures Valid() && Reaction(Abs(), escaped) == FailAndStop(setup, old(Abs()), f)
    {
      notes := notes + [Failed(Some(f))];
      if setup.user.failureThrows(Some(f)) {
        return Some(ListenerThrew);
      }
      escaped := OnStop();
    }

    method OnMessage(raw: JString, parsed: Option<map<string, Json>>) returns (escaped: Option<Fault>)
      requires Valid()
      modifies this`finishedFlag, this`stoppedFlag, this`notes, fullMessage, context`aiMessage
      ensures Valid() && Reaction(Abs(), escaped) == PipelineStream.OnMessage(setup, old(Abs()), raw, parsed)
    {
      if NoText(raw) || EqualsIgnoreCase("[DONE]", Some(Trim(raw.value))) || finishedFlag {
        escaped := NotifyLastMessageAndStop(raw);
        return;
      }
      if parsed.None? {
        escaped := FailThenStop(MalformedJson);
        return;
      }
      var parsedDelta := ParseMessage(setup.parser, setup.streaming, parsed.value);
      if parsedDelta.Threw? {
        escaped := FailThenStop(parsedDelta.error);
        return;
      }
      escaped := TakeDelta(raw, parsedDelta.value);
    }

    /** The rest of `onMessage` once the delta is parsed. */
    method TakeDelta(raw: JString, delta: AiMessage) returns (escaped: Option<Fault>)
      requires Valid() && delta != fullMessage
      modifies this`finishedFlag, this`stoppedFlag, this`notes, fullMessage, context`aiMessage, delta
      ensures Valid() && Reaction(Abs(), escaped) == PipelineStream.TakeDelta(setup, old(Abs()), raw, old(delta.Snapshot()))
    {
      fullMessage.Merge(delta);
      delta.SetFullContent(fullMessage.content);
      escaped := None;
      if delta.content.Some? {
        var thrown := Deliver(NewResponse(setup.chatContext, raw, Some(delta.Snapshot())));
        if thrown.Some? {
          escaped := FailThenStop(thrown.value);
        }
      }
    }

    method Dispatch(e: Event)
      requires Valid()
      modifies this`finishedFlag, this`stoppedFlag, this`notes, fullMessage, context`aiMessage, context`throwable
      ensures Valid() && Abs() == Step(setup, old(Abs()), e)
    {
      match e
      case Start => var _ := OnStart();
      case Payload(raw, parsed) => var _ := OnMessage(raw, parsed);
      case Failure(t) => var _ := OnFailure(t);
      case Stop => var _ := OnStop();
    }

    /** Feed the transport's events in order. */
    method Drive(events: seq<Event>)
      requires Valid()
      modifies this`finishedFlag, this`stoppedFlag, this`notes, fullMessage, context`aiMessage, context`throwable
      ensures Valid() && Abs() == Run(setup, old(Abs()), events)
    {
      var i := 0;
      while i < |events|
        invariant 0 <= i <= |events| && Valid()
        invariant Run(setup, Abs(), events[i..]) == Run(setup, old(Abs()), events)
      {
        assert events[i..][1..] == events[i + 1..];
        Dispatch(events[i]);
        i := i + 1;
      }
    }
  }

  /** A listener driven from construction satisfies every property of `PipelineStream.Run`. */
  method Listen(chatModel: nat, client: nat, setup: Setup, events: seq<Event>) returns (l: StreamListener)
    ensures l.Abs() == Run(setup, Initial, events)
    ensures Stops(l.notes) <= 1 && Finals(l.notes) <= 1
    ensures l.stoppedFlag == l.finishedFlag
  {
    l := new StreamListener(chatModel, client, setup);
    l.Drive(events);
    RunKeeps(setup, Initial, events);
  }
}
