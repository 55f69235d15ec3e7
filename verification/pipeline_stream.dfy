/**
 * The streaming aggregator of `me.maydeng.llmkit`: `BaseStreamClientListener`
 * and the `StreamContext` it fills in.  The SSE transport calls the
 * listener with a start, raw payloads, failures and a stop; the listener
 * merges every parsed delta into one `AiMessage`, hands each delta and then
 * one final aggregate to the user's `StreamResponseListener`, and stops once.
 *
 * The pure functions below are the specification: `Agg` is the state the
 * listener and its context expose, `Note` is one notification the user's
 * listener receives, and `Run` folds a sequence of transport events.  The
 * classes at the end are proved to follow them.
 */
module PipelineStream {
  import opened Wrappers
  import opened JavaText
  import opened Json
  import opened PipelineStrings
  import opened PipelineFaults
  import opened PipelineMessages
  import opened PipelineResponse
  import opened PipelineParser

  /**
   * The user's `StreamResponseListener`, by when each of its methods throws:
   * `onMessage` on the responses it `rejects`, `onStart` when `startThrows`,
   * `onFailure` on the throwables `failureThrows` picks, and `onStop` on the
   * context messages `stopThrows` picks.
   */
  datatype UserCallbacks = UserCallbacks(
    rejects: Response -> bool,
    startThrows: bool,
    failureThrows: Option<Fault> -> bool,
    stopThrows: AiSnap -> bool)

  /** What a listener is wired to: the chat context (by identity), whether its options ask for streaming, the parser, and the user's listener. */
  datatype Setup = Setup(chatContext: nat, streaming: bool, parser: Parser, user: UserCallbacks)

  /** One call into the user's `StreamResponseListener`. */
  datatype Note =
    | Started
    | Delivered(response: Response)
    | Failed(cause: Option<Fault>)
    /** `onStop`, with the state of `context.getAiMessage()` at that moment. */
    | Stopped(message: AiSnap)

  /**
   * The listener's state: `fullMessage`, the two flags, whether
   * `context.aiMessage` has been set, `context.throwable`, and every
   * notification so far.
   */
  datatype Agg = Agg(
    message: AiSnap,
    finishedFlag: bool,
    stoppedFlag: bool,
    published: bool,
    throwable: Option<Fault>,
    notes: seq<Note>)

  /** The state after a listener method, and the exception that escaped it, if any. */
  datatype Reaction = Reaction(after: Agg, escaped: Option<Fault>)

  /** A transport event: `onStart`, `onMessage(data)` with its parse, `onFailure(t)`, `onStop`. */
  datatype Event =
    | Start
    | Payload(raw: JString, parsed: Option<map<string, Json>>)
    | Failure(cause: Option<Fault>)
    | Stop

  const Initial: Agg := Agg(AiSnap(None, None, false), false, false, false, None, [])

  // ---------------------------------------------------------------------
  // Specification of each listener method

  /** The end-of-stream test of `onMessage`: blank, `[DONE]` after trim in any case, or already finished. */
  predicate IsEndSignal(raw: JString, finished: bool) {
    NoText(raw) || (raw.Some? && EqualsIgnoreCase("[DONE]", Some(Trim(raw.value)))) || finished
  }

  /** The user's `onMessage`: recorded, and it throws when `rejects` says so. */
  function Deliver(s: Setup, a: Agg, resp: Response): Reaction {
    Reaction(a.(notes := a.notes + [Delivered(resp)]), if s.user.rejects(resp) then Some(ListenerThrew) else None)
  }

  /** `notifyLastMessage`: on the first call only, move the content to `fullContent` and hand over the final message. */
  function NotifyLast(s: Setup, a: Agg, raw: JString): Reaction {
    if a.finishedFlag then Reaction(a, None)
    else
      var m := AiSnap(None, a.message.content, true);
      Deliver(s, a.(message := m, finishedFlag := true), NewResponse(s.chatContext, raw, Some(m)))
  }

  /** The `finally` block: on the first call only, publish the message in the context and call `onStop`. */
  function StopOnce(a: Agg): Agg {
    if a.stoppedFlag then a
    else a.(stoppedFlag := true, published := true, notes := a.notes + [Stopped(a.message)])
  }

  /**
   * `notifyLastMessageAndStop(raw)`, and `onStop` with a null raw text.  The
   * `finally` block runs even when the final `onMessage` throws; when the
   * user's `onStop` throws too, its exception is the one that escapes.
   */
  function Terminate(s: Setup, a: Agg, raw: JString): Reaction {
    var r := NotifyLast(s, a, raw);
    var stopThrew := !r.after.stoppedFlag && s.user.stopThrows(r.after.message);
    Reaction(StopOnce(r.after), if stopThrew then Some(ListenerThrew) else r.escaped)
  }

  /**
   * The `catch` of `onMessage`: the user's `onFailure` (the context is not
   * touched), then `onStop`, which is skipped when `onFailure` throws.
   */
  function FailAndStop(s: Setup, a: Agg, f: Fault): Reaction {
    var b := a.(notes := a.notes + [Failed(Some(f))]);
    if s.user.failureThrows(Some(f)) then Reaction(b, Some(ListenerThrew)) else Terminate(s, b, None)
  }

  /** `onStart`: the user's `onStart`, which may throw. */
  function OnStart(s: Setup, a: Agg): Reaction {
    Reaction(a.(notes := a.notes + [Started]), if s.user.startThrows then Some(ListenerThrew) else None)
  }

  /** `onFailure`: record the throwable in the context and tell the user; no flag moves. */
  function OnFailure(s: Setup, a: Agg, t: Option<Fault>): Reaction {
    Reaction(a.(throwable := t, notes := a.notes + [Failed(t)]), if s.user.failureThrows(t) then Some(ListenerThrew) else None)
  }

  function OnStop(s: Setup, a: Agg): Reaction {
    Terminate(s, a, None)
  }

  /** `onMessage(raw)`, given what `JSON.parseObject` made of the text. */
  function OnMessage(s: Setup, a: Agg, raw: JString, parsed: Option<map<string, Json>>): Reaction {
    if IsEndSignal(raw, a.finishedFlag) then Terminate(s, a, raw)
    else if parsed.None? then FailAndStop(s, a, MalformedJson)
    else match Parse(s.parser, s.streaming, parsed.value)
      case Threw(f) => FailAndStop(s, a, f)
      case Returned(d) => TakeDelta(s, a, raw, d)
  }

  /** A parsed delta: merged into the full message, then handed to the user when it has content. */
  function TakeDelta(s: Setup, a: Agg, raw: JString, d: AiSnap): Reaction {
    var merged := MergeSnap(a.message, Some(d.content));
    var b := a.(message := merged);
    if d.content.None? then Reaction(b, None)
    else
      var r := Deliver(s, b, NewResponse(s.chatContext, raw, Some(d.(fullContent := merged.content))));
      if r.escaped.Some? then FailAndStop(s, r.after, r.escaped.value) else r
  }

  function Step(s: Setup, a: Agg, e: Event): Agg {
    match e
    case Start => OnStart(s, a).after
    case Payload(raw, parsed) => OnMessage(s, a, raw, parsed).after
    case Failure(t) => OnFailure(s, a, t).after
    case Stop => OnStop(s, a).after
  }

  /** The listener's state after the transport delivered `events`, in order. */
  function Run(s: Setup, a: Agg, events: seq<Event>): Agg
    decreases |events|
  {
    if events == [] then a else Run(s, Step(s, a, events[0]), events[1..])
  }

  // ---------------------------------------------------------------------
  // Reading the notifications

  /** The final aggregate message: delivered, finished. */
  predicate IsFinal(n: Note) {
    n.Delivered? && n.response.message.Some? && n.response.message.value.finished
  }

  /** A delta message: delivered, not finished. */
  predicate IsDelta(n: Note) {
    n.Delivered? && n.response.message.Some? && !n.response.message.value.finished
  }

  function DeltaText(n: Note): string {
    if IsDelta(n) then OrEmpty(n.response.message.value.content) else ""
  }

  /** The delta contents handed over so far, concatenated in order. */
  function Deltas(ns: seq<Note>): string {
    if ns == [] then "" else Deltas(ns[..|ns| - 1]) + DeltaText(ns[|ns| - 1])
  }

  function Finals(ns: seq<Note>): nat {
    if ns == [] then 0 else Finals(ns[..|ns| - 1]) + (if IsFinal(ns[|ns| - 1]) then 1 else 0)
  }

  function Stops(ns: seq<Note>): nat {
    if ns == [] then 0 else Stops(ns[..|ns| - 1]) + (if ns[|ns| - 1].Stopped? then 1 else 0)
  }

  /** The text merged so far: the content while streaming, `fullContent` once finished. */
  function Merged(a: Agg): string {
    OrEmpty(if a.finishedFlag then a.message.fullContent else a.message.content)
  }

  // ---------------------------------------------------------------------
  // The invariant

  /** Every final message has null content and comes before any stop. */
  predicate FinalsShaped(ns: seq<Note>) {
    forall i :: 0 <= i < |ns| && IsFinal(ns[i]) ==>
      ns[i].response.message.value.content.None? && Stops(ns[..i]) == 0
  }

  /** No delta comes after a final message. */
  predicate DeltasBeforeFinal(ns: seq<Note>) {
    forall i :: 0 <= i < |ns| && IsDelta(ns[i]) ==> Finals(ns[..i]) == 0
  }

  /** Every delivered message carries as `fullContent` the concatenation up to and including it. */
  predicate RunningTotals(ns: seq<Note>) {
    forall i :: 0 <= i < |ns| && ns[i].Delivered? && ns[i].response.message.Some? ==>
      OrEmpty(ns[i].response.message.value.fullContent) == Deltas(ns[..i + 1])
  }

  /** What holds between any two steps of a listener method. */
  predicate Core(a: Agg) {
    && Stops(a.notes) == (if a.stoppedFlag then 1 else 0)
    && Finals(a.notes) == (if a.finishedFlag then 1 else 0)
    && (a.stoppedFlag ==> a.finishedFlag)
    && a.published == a.stoppedFlag
    && a.message.finished == a.finishedFlag
    && (a.finishedFlag ==> a.message.content.None?)
    && Merged(a) == Deltas(a.notes)
    && FinalsShaped(a.notes) && DeltasBeforeFinal(a.notes) && RunningTotals(a.notes)
  }

  /** What holds between two transport events: finishing and stopping go together. */
  predicate Inv(a: Agg) {
    Core(a) && a.finishedFlag == a.stoppedFlag
  }

  lemma {:induction false} PrefixFacts(ns: seq<Note>, n: Note)
    ensures (ns + [n])[..|ns|] == ns
    ensures Deltas(ns + [n]) == Deltas(ns) + DeltaText(n)
    ensures Finals(ns + [n]) == Finals(ns) + (if IsFinal(n) then 1 else 0)
    ensures Stops(ns + [n]) == Stops(ns) + (if n.Stopped? then 1 else 0)
  {
    assert (ns + [n])[..|ns|] == ns;
  }

  lemma ExtendFinalsShaped(ns: seq<Note>, n: Note)
    requires FinalsShaped(ns)
    requires IsFinal(n) ==> n.response.message.value.content.None? && Stops(ns) == 0
    ensures FinalsShaped(ns + [n])
  {
    var ms := ns + [n];
    assert ms[..|ns|] == ns;
    forall i | 0 <= i < |ms| && IsFinal(ms[i])
      ensures ms[i].response.message.value.content.None? && Stops(ms[..i]) == 0
    {
      if i < |ns| { assert ms[i] == ns[i] && ms[..i] == ns[..i]; }
    }
  }

  lemma ExtendDeltasBeforeFinal(ns: seq<Note>, n: Note)
    requires DeltasBeforeFinal(ns)
    requires IsDelta(n) ==> Finals(ns) == 0
    ensures DeltasBeforeFinal(ns + [n])
  {
    var ms := ns + [n];
    assert ms[..|ns|] == ns;
    forall i | 0 <= i < |ms| && IsDelta(ms[i])
      ensures Finals(ms[..i]) == 0
    {
      if i < |ns| { assert ms[i] == ns[i] && ms[..i] == ns[..i]; }
    }
  }

  lemma ExtendRunningTotals(ns: seq<Note>, n: Note)
    requires RunningTotals(ns)
    requires n.Delivered? && n.response.message.Some? ==>
      OrEmpty(n.response.message.value.fullContent) == Deltas(ns) + DeltaText(n)
    ensures RunningTotals(ns + [n])
  {
    var ms := ns + [n];
    forall i | 0 <= i < |ms| && ms[i].Delivered? && ms[i].response.message.Some?
      ensures OrEmpty(ms[i].response.message.value.fullContent) == Deltas(ms[..i + 1])
    {
      if i < |ns| {
        assert ms[i] == ns[i] && ms[..i + 1] == ns[..i + 1];
      } else {
        PrefixFacts(ns, n);
        assert ms[i] == n && ms[..i + 1] == ms;
      }
    }
  }

  /** Appending one notification that respects the three shapes keeps them. */
  lemma Extend(ns: seq<Note>, n: Note)
    requires FinalsShaped(ns) && DeltasBeforeFinal(ns) && RunningTotals(ns)
    requires IsFinal(n) ==> n.response.message.value.content.None? && Stops(ns) == 0
    requires IsDelta(n) ==> Finals(ns) == 0
    requires n.Delivered? && n.response.message.Some? ==>
      OrEmpty(n.response.message.value.fullContent) == Deltas(ns) + DeltaText(n)
    ensures FinalsShaped(ns + [n]) && DeltasBeforeFinal(ns + [n]) && RunningTotals(ns + [n])
    ensures Deltas(ns + [n]) == Deltas(ns) + DeltaText(n)
    ensures Finals(ns + [n]) == Finals(ns) + (if IsFinal(n) then 1 else 0)
    ensures Stops(ns + [n]) == Stops(ns) + (if n.Stopped? then 1 else 0)
  {
    PrefixFacts(ns, n);
    ExtendFinalsShaped(ns, n);
    ExtendDeltasBeforeFinal(ns, n);
    ExtendRunningTotals(ns, n);
  }

  lemma NotifyLastKeeps(s: Setup, a: Agg, raw: JString)
    requires Core(a)
    ensures Core(NotifyLast(s, a, raw).after)
    ensures NotifyLast(s, a, raw).after.finishedFlag
    ensures NotifyLast(s, a, raw).after.stoppedFlag == a.stoppedFlag
  {
    if !a.finishedFlag {
      var m := AiSnap(None, a.message.content, true);
      Extend(a.notes, Delivered(NewResponse(s.chatContext, raw, Some(m))));
    }
  }

  lemma StopOnceKeeps(a: Agg)
    requires Core(a) && a.finishedFlag
    ensures Core(StopOnce(a)) && StopOnce(a).stoppedFlag
  {
    if !a.stoppedFlag {
      Extend(a.notes, Stopped(a.message));
    }
  }

  lemma TerminateKeeps(s: Setup, a: Agg, raw: JString)
    requires Core(a)
    ensures Inv(Terminate(s, a, raw).after)
  {
    NotifyLastKeeps(s, a, raw);
    StopOnceKeeps(NotifyLast(s, a, raw).after);
  }

  lemma FailedKeeps(s: Setup, a: Agg, t: Option<Fault>)
    requires Inv(a)
    ensures Inv(a.(notes := a.notes + [Failed(t)]))
    ensures Inv(OnFailure(s, a, t).after)
  {
    Extend(a.notes, Failed(t));
  }

  lemma OnMessageKeeps(s: Setup, a: Agg, raw: JString, parsed: Option<map<string, Json>>)
    requires Inv(a)
    ensures Inv(OnMessage(s, a, raw, parsed).after)
  {
    if IsEndSignal(raw, a.finishedFlag) {
      TerminateKeeps(s, a, raw);
    } else if parsed.None? {
      FailedKeeps(s, a, Some(MalformedJson));
      TerminateKeeps(s, a.(notes := a.notes + [Failed(Some(MalformedJson))]), None);
    } else {
      match Parse(s.parser, s.streaming, parsed.value)
      case Threw(f) =>
        FailedKeeps(s, a, Some(f));
        TerminateKeeps(s, a.(notes := a.notes + [Failed(Some(f))]), None);
      case Returned(d) =>
        assert !a.finishedFlag;
        TakeDeltaKeeps(s, a, raw, d);
    }
  }

  lemma TakeDeltaKeeps(s: Setup, a: Agg, raw: JString, d: AiSnap)
    requires Inv(a) && !a.finishedFlag && !d.finished
    ensures Inv(TakeDelta(s, a, raw, d).after)
  {
    var merged := MergeSnap(a.message, Some(d.content));
    var b := a.(message := merged);
    if d.content.Some? {
      var n := Delivered(NewResponse(s.chatContext, raw, Some(d.(fullContent := merged.content))));
      Extend(b.notes, n);
      var r := Deliver(s, b, n.response);
      assert Inv(r.after);
      if r.escaped.Some? {
        FailedKeeps(s, r.after, r.escaped);
        TerminateKeeps(s, r.after.(notes := r.after.notes + [Failed(r.escaped)]), None);
      }
    }
  }

  lemma StepKeeps(s: Setup, a: Agg, e: Event)
    requires Inv(a)
    ensures Inv(Step(s, a, e))
  {
    match e
    case Start => Extend(a.notes, Started);
    case Payload(raw, parsed) => OnMessageKeeps(s, a, raw, parsed);
    case Failure(t) => FailedKeeps(s, a, t);
    case Stop => TerminateKeeps(s, a, None);
  }

  /** The invariant holds after any sequence of transport events. */
  lemma {:induction false} RunKeeps(s: Setup, a: Agg, events: seq<Event>)
    requires Inv(a)
    ensures Inv(Run(s, a, events))
    decreases |events|
  {
    if events != [] {
      StepKeeps(s, a, events[0]);
      RunKeeps(s, Step(s, a, events[0]), events[1..]);
    }
  }

  // ---------------------------------------------------------------------
  // Properties of every run

  lemma {:induction false} StopsCountMember(ns: seq<Note>, j: nat)
    requires j < |ns| && ns[j].Stopped?
    ensures Stops(ns) >= 1
    decreases |ns|
  {
    if j < |ns| - 1 {
      assert ns[..|ns| - 1][j] == ns[j];
      StopsCountMember(ns[..|ns| - 1], j);
    }
  }

  lemma {:induction false} FinalsCountMember(ns: seq<Note>, j: nat)
    requires j < |ns| && IsFinal(ns[j])
    ensures Finals(ns) >= 1
    decreases |ns|
  {
    if j < |ns| - 1 {
      assert ns[..|ns| - 1][j] == ns[j];
      FinalsCountMember(ns[..|ns| - 1], j);
    }
  }

  /** The user's `onStop` runs at most once, whatever the transport sends. */
  lemma StopAtMostOnce(s: Setup, events: seq<Event>)
    ensures Stops(Run(s, Initial, events).notes) <= 1
  {
    RunKeeps(s, Initial, events);
  }

  /**
   * The final aggregate is handed over at most once; it has null content,
   * is finished, and its `fullContent` is every delta before it, concatenated.
   */
  lemma FinalAtMostOnce(s: Setup, events: seq<Event>)
    ensures Finals(Run(s, Initial, events).notes) <= 1
    ensures var ns := Run(s, Initial, events).notes;
      forall i :: 0 <= i < |ns| && IsFinal(ns[i]) ==>
        && ns[i].response.message.value.content.None?
        && OrEmpty(ns[i].response.message.value.fullContent) == Deltas(ns[..i])
  {
    RunKeeps(s, Initial, events);
    var ns := Run(s, Initial, events).notes;
    forall i | 0 <= i < |ns| && IsFinal(ns[i])
      ensures OrEmpty(ns[i].response.message.value.fullContent) == Deltas(ns[..i])
    {
      assert ns[..i + 1][..i] == ns[..i];
    }
  }

  /** A run that stops has handed over its final message, and did so before `onStop`. */
  lemma FinalBeforeStop(s: Setup, events: seq<Event>)
    ensures var ns := Run(s, Initial, events).notes;
      && Stops(ns) == Finals(ns)
      && forall i, j :: 0 <= i < |ns| && 0 <= j < |ns| && IsFinal(ns[i]) && ns[j].Stopped? ==> i < j
  {
    RunKeeps(s, Initial, events);
    var ns := Run(s, Initial, events).notes;
    forall i, j | 0 <= i < |ns| && 0 <= j < |ns| && IsFinal(ns[i]) && ns[j].Stopped?
      ensures i < j
    {
      if j < i {
        assert ns[..i][j] == ns[j];
        StopsCountMember(ns[..i], j);
      }
    }
  }

  /** No delta message follows the final one. */
  lemma NoDeltaAfterFinal(s: Setup, events: seq<Event>)
    ensures var ns := Run(s, Initial, events).notes;
      forall i, j :: 0 <= i < |ns| && 0 <= j < |ns| && IsFinal(ns[i]) && IsDelta(ns[j]) ==> j < i
  {
    RunKeeps(s, Initial, events);
    var ns := Run(s, Initial, events).notes;
    forall i, j | 0 <= i < |ns| && 0 <= j < |ns| && IsFinal(ns[i]) && IsDelta(ns[j])
      ensures j < i
    {
      if i < j {
        assert ns[..j][i] == ns[i];
        FinalsCountMember(ns[..j], i);
      }
    }
  }

  /**
   * Each delta carries as `fullContent` the concatenation of all deltas up to
   * and including itself, and the aggregate holds the concatenation of all.
   */
  lemma ContentIsConcatenation(s: Setup, events: seq<Event>)
    ensures var a := Run(s, Initial, events);
      && Merged(a) == Deltas(a.notes)
      && forall i :: 0 <= i < |a.notes| && IsDelta(a.notes[i]) ==>
           OrEmpty(a.notes[i].response.message.value.fullContent) == Deltas(a.notes[..i + 1])
  {
    RunKeeps(s, Initial, events);
  }

  /** End signals terminate without looking at the payload. */
  lemma EndSignalNeverParsed(s: Setup, a: Agg, raw: JString, p: Option<map<string, Json>>)
    requires IsEndSignal(raw, a.finishedFlag)
    ensures OnMessage(s, a, raw, p) == Terminate(s, a, raw)
  {
  }

  /** A parsed delta is handed over exactly when its content is non-null, the empty string included. */
  lemma DeltaDeliveredIffNonNull(s: Setup, a: Agg, raw: JString, root: map<string, Json>, d: AiSnap)
    requires !IsEndSignal(raw, a.finishedFlag)
    requires Parse(s.parser, s.streaming, root) == Returned(d)
    ensures var r := OnMessage(s, a, raw, Some(root));
      && Merged(r.after) == OrEmpty(a.message.content) + OrEmpty(d.content)
      && (d.content.None? <==> r.after.notes == a.notes)
      && (d.content.Some? ==>
            && |r.after.notes| > |a.notes|
            && r.after.notes[|a.notes|] == Delivered(NewResponse(s.chatContext, raw,
                 Some(AiSnap(d.content, Append(a.message.content, d.content), false)))))
  {
    if d.content.Some? {
      var r := OnMessage(s, a, raw, Some(root));
      assert |r.after.notes| > |a.notes|;
    }
  }

  /**
   * A payload that is not JSON, or whose content is not a string: the user's
   * `onFailure`, then the final message, then `onStop`.  The context's
   * throwable is left alone.  When the user's `onFailure` throws, that
   * exception escapes and neither the final message nor `onStop` follows.
   */
  lemma BadPayloadFailsThenStops(s: Setup, a: Agg, raw: JString, parsed: Option<map<string, Json>>)
    requires Inv(a) && !IsEndSignal(raw, a.finishedFlag)
    requires parsed.None? || Parse(s.parser, s.streaming, parsed.value).Threw?
    ensures var f := if parsed.None? then MalformedJson else ClassCast;
      var fin := AiSnap(None, a.message.content, true);
      var r := OnMessage(s, a, raw, parsed);
      && r.after.throwable == a.throwable
      && (!s.user.failureThrows(Some(f)) ==>
            && r.after.notes == a.notes + [Failed(Some(f)), Delivered(NewResponse(s.chatContext, None, Some(fin))), Stopped(fin)]
            && r.after.finishedFlag && r.after.stoppedFlag)
      && (s.user.failureThrows(Some(f)) ==>
            r == Reaction(a.(notes := a.notes + [Failed(Some(f))]), Some(ListenerThrew)))
  {
  }

  /**
   * The user's `onMessage` throwing on a delta is reported to its
   * `onFailure` and ends the stream, unless `onFailure` throws as well.
   */
  lemma RejectedDeltaStopsStream(s: Setup, a: Agg, raw: JString, root: map<string, Json>, d: AiSnap)
    requires !a.stoppedFlag && !IsEndSignal(raw, a.finishedFlag)
    requires Parse(s.parser, s.streaming, root) == Returned(d) && d.content.Some?
    requires s.user.rejects(NewResponse(s.chatContext, raw, Some(AiSnap(d.content, Append(a.message.content, d.content), false))))
    ensures var r := OnMessage(s, a, raw, Some(root));
      var fin := AiSnap(None, Append(a.message.content, d.content), true);
      var delta := Delivered(NewResponse(s.chatContext, raw, Some(AiSnap(d.content, Append(a.message.content, d.content), false))));
      && (!s.user.failureThrows(Some(ListenerThrew)) ==>
            && r.after.notes == a.notes + [delta, Failed(Some(ListenerThrew)), Delivered(NewResponse(s.chatContext, None, Some(fin))), Stopped(fin)]
            && r.after.stoppedFlag)
      && (s.user.failureThrows(Some(ListenerThrew)) ==>
            && r.after.notes == a.notes + [delta, Failed(Some(ListenerThrew))]
            && !r.after.stoppedFlag && r.escaped == Some(ListenerThrew))
  {
    var merged := MergeSnap(a.message, Some(d.content));
    var snap := AiSnap(d.content, Append(a.message.content, d.content), false);
    assert d.(fullContent := merged.content) == snap;
    var n := Delivered(NewResponse(s.chatContext, raw, Some(snap)));
    var failed := a.(message := merged, notes := a.notes + [n, Failed(Some(ListenerThrew))]);
    assert OnMessage(s, a, raw, Some(root)) == TakeDelta(s, a, raw, d);
    if !s.user.failureThrows(Some(ListenerThrew)) {
      assert TakeDelta(s, a, raw, d) == Terminate(s, failed, None);
    } else {
      assert TakeDelta(s, a, raw, d) == Reaction(failed, Some(ListenerThrew));
    }
  }

  /** The stop sequence still runs when the user's `onMessage` throws on the final message. */
  lemma StopSurvivesThrowingFinal(s: Setup, a: Agg, raw: JString)
    requires Inv(a) && !a.finishedFlag
    requires s.user.rejects(NewResponse(s.chatContext, raw, Some(AiSnap(None, a.message.content, true))))
    ensures var r := Terminate(s, a, raw);
      && r.escaped == Some(ListenerThrew)
      && r.after.stoppedFlag && r.after.published
      && r.after.notes[|r.after.notes| - 1] == Stopped(AiSnap(None, a.message.content, true))
      && Inv(r.after)
  {
    TerminateKeeps(s, a, raw);
  }

  /** A user's `onStop` that throws still leaves the listener stopped, with its exception escaping. */
  lemma ThrowingStopStillStops(s: Setup, a: Agg, raw: JString)
    requires Inv(a) && !a.stoppedFlag
    requires s.user.stopThrows(NotifyLast(s, a, raw).after.message)
    ensures var r := Terminate(s, a, raw);
      && r.escaped == Some(ListenerThrew)
      && r.after.stoppedFlag && r.after.finishedFlag && r.after.published
      && r.after.notes[|r.after.notes| - 1] == Stopped(NotifyLast(s, a, raw).after.message)
      && Inv(r.after)
  {
    TerminateKeeps(s, a, raw);
    NotifyLastKeeps(s, a, raw);
  }

  /**
   * `onFailure` records the throwable and notifies, and neither finishes nor
   * stops, even after the stream has stopped.
   */
  lemma FailureOnlyRecords(s: Setup, a: Agg, t: Option<Fault>)
    requires Inv(a)
    ensures OnFailure(s, a, t).escaped.Some? <==> s.user.failureThrows(t)
    ensures var b := OnFailure(s, a, t).after;
      && Inv(b)
      && b.throwable == t && b.notes == a.notes + [Failed(t)]
      && b.finishedFlag == a.finishedFlag && b.stoppedFlag == a.stoppedFlag && b.message == a.message
  {
    FailedKeeps(s, a, t);
  }

  // ---------------------------------------------------------------------
  // A complete stream: "He", "llo", [DONE], then the transport's stop

  const ChunkHe: string := "{\"choices\":[{\"delta\":{\"content\":\"He\"}}]}"
  const ChunkLlo: string := "{\"choices\":[{\"delta\":{\"content\":\"llo\"}}]}"

  lemma TextIsNotEndSignal(raw: string)
    requires |raw| > 0 && raw[0] == '{' && raw[|raw| - 1] == '}'
    ensures !IsEndSignal(Some(raw), false)
  {
    assert !IsTrimmed(raw[0]);
    var t := TrimStart(raw);
    assert t == raw;
    assert TrimEnd(t) == raw;
    assert !CharEqualsIgnoreCase('[', raw[0]);
  }

  lemma DoneIsEndSignal(finished: bool)
    ensures IsEndSignal(Some("[DONE]"), finished)
  {
    var done := "[DONE]";
    assert TrimStart(done) == done by { assert !IsTrimmed(done[0]); }
    assert TrimEnd(done) == done by { assert !IsTrimmed(done[5]); }
  }

  /** One chunk of the OpenAI stream, parsed and handed over. */
  lemma ChunkStep(s: Setup, a: Agg, raw: string, c: string)
    requires s.parser == OpenAIParser() && s.streaming
    requires forall r :: !s.user.rejects(r)
    requires !a.finishedFlag && |raw| > 0 && raw[0] == '{' && raw[|raw| - 1] == '}'
    ensures var merged := Append(a.message.content, Some(c));
      OnMessage(s, a, Some(raw), Some(DeltaChunk(c))) == Reaction(
        a.(message := a.message.(content := merged),
           notes := a.notes + [Delivered(NewResponse(s.chatContext, Some(raw), Some(AiSnap(Some(c), merged, false))))]),
        None)
  {
    TextIsNotEndSignal(raw);
    OpenAIParserPaths(c);
  }

  /** The listener after the start and the two chunks of the stream in `HelloStream`. */
  lemma HelloChunks(s: Setup)
    requires s.parser == OpenAIParser() && s.streaming
    requires forall r :: !s.user.rejects(r)
    ensures Step(s, Step(s, Step(s, Initial, Start), Payload(Some(ChunkHe), Some(DeltaChunk("He")))),
                 Payload(Some(ChunkLlo), Some(DeltaChunk("llo"))))
         == Agg(AiSnap(Some("Hello"), None, false), false, false, false, None,
                [Started,
                 Delivered(NewResponse(s.chatContext, Some(ChunkHe), Some(AiSnap(Some("He"), Some("He"), false)))),
                 Delivered(NewResponse(s.chatContext, Some(ChunkLlo), Some(AiSnap(Some("llo"), Some("Hello"), false))))])
  {
    var a1 := Step(s, Initial, Start);
    assert a1 == Initial.(notes := [Started]);
    ChunkStep(s, a1, ChunkHe, "He");
    var d1 := Delivered(NewResponse(s.chatContext, Some(ChunkHe), Some(AiSnap(Some("He"), Some("He"), false))));
    var a2 := Step(s, a1, Payload(Some(ChunkHe), Some(DeltaChunk("He"))));
    assert a2 == Agg(AiSnap(Some("He"), None, false), false, false, false, None, [Started, d1]);
    ChunkStep(s, a2, ChunkLlo, "llo");
    HelloJoined();
    var d2 := Delivered(NewResponse(s.chatContext, Some(ChunkLlo), Some(AiSnap(Some("llo"), Some("Hello"), false))));
    assert [Started, d1] + [d2] == [Started, d1, d2];
  }

  lemma HelloJoined()
    ensures Append(Some("He"), Some("llo")) == Some("Hello")
  {
    assert "He" + "llo" == "Hello";
  }

  /** The "[DONE]" payload and the transport stop that end the stream in `HelloStream`. */
  lemma HelloEnd(s: Setup, a: Agg)
    requires forall r :: !s.user.rejects(r)
    requires a == Agg(AiSnap(Some("Hello"), None, false), false, false, false, None, a.notes)
    ensures Run(s, a, [Payload(Some("[DONE]"), None), Stop]).notes
         == a.notes + [Delivered(NewResponse(s.chatContext, Some("[DONE]"), Some(AiSnap(None, Some("Hello"), true)))),
                       Stopped(AiSnap(None, Some("Hello"), true))]
  {
    var e3 := Payload(Some("[DONE]"), None);
    DoneIsEndSignal(false);
    var a4 := Step(s, a, e3);
    assert a4.stoppedFlag && a4.finishedFlag;
    var a5 := Step(s, a4, Stop);
    assert a5 == a4;
    assert [e3, Stop][1..] == [Stop];
  }

  lemma HelloStream(s: Setup)
    requires s.parser == OpenAIParser() && s.streaming
    requires forall r :: !s.user.rejects(r)
    ensures Run(s, Initial, [Start, Payload(Some(ChunkHe), Some(DeltaChunk("He"))),
                             Payload(Some(ChunkLlo), Some(DeltaChunk("llo"))),
                             Payload(Some("[DONE]"), None), Stop]).notes
         == [Started,
             Delivered(NewResponse(s.chatContext, Some(ChunkHe), Some(AiSnap(Some("He"), Some("He"), false)))),
             Delivered(NewResponse(s.chatContext, Some(ChunkLlo), Some(AiSnap(Some("llo"), Some("Hello"), false)))),
             Delivered(NewResponse(s.chatContext, Some("[DONE]"), Some(AiSnap(None, Some("Hello"), true)))),
             Stopped(AiSnap(None, Some("Hello"), true))]
  {
    var e1 := Payload(Some(ChunkHe), Some(DeltaChunk("He")));
    var e2 := Payload(Some(ChunkLlo), Some(DeltaChunk("llo")));
    var e3 := Payload(Some("[DONE]"), None);
    var a1 := Step(s, Initial, Start);
    var a2 := Step(s, a1, e1);
    var a3 := Step(s, a2, e2);
    HelloChunks(s);
    HelloEnd(s, a3);
    RunFirst(s, Initial, [Start, e1, e2, e3, Stop]);
    RunFirst(s, a1, [e1, e2, e3, Stop]);
    RunFirst(s, a2, [e2, e3, Stop]);
    assert [Start, e1, e2, e3, Stop][1..] == [e1, e2, e3, Stop];
    assert [e1, e2, e3, Stop][1..] == [e2, e3, Stop];
    assert [e2, e3, Stop][1..] == [e3, Stop];
  }

  /** Running a non-empty event list: the first step, then the rest. */
  lemma RunFirst(s: Setup, a: Agg, events: seq<Event>)
    requires events != []
    ensures Run(s, a, events) == Run(s, Step(s, a, events[0]), events[1..])
  {
  }
}
