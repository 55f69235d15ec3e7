/**
 * The prompts of the `io.github.llmkit` generation: the immutable
 * `ChatPrompt`, the in-place `ChatPromptBuilder`, the three-slot
 * `SimplePrompt` with its builder, and the `Prompt` factories.
 */
module FlatPrompts {
  import opened Wrappers
  import opened JavaText
  import opened FlatStrings
  import opened FlatMessages

  /** An immutable `ChatPrompt`: its own copy of the message list. */
  datatype ChatPrompt = ChatPrompt(messages: seq<Message>)

  /** `ChatPrompt.of(list)` and `ChatPrompt.of(varargs...)`: null gives the empty prompt, anything else a copy. */
  function ChatPromptOf(ms: Option<seq<Message>>): ChatPrompt {
    ChatPrompt(ms.GetOr([]))
  }

  /** `ChatPrompt.empty()`. */
  const EmptyChatPrompt: ChatPrompt := ChatPrompt([])

  function AddUserMessage(p: ChatPrompt, content: JString): ChatPrompt {
    ChatPrompt(p.messages + [UserMessage(content)])
  }

  function AddAssistantMessage(p: ChatPrompt, content: JString): ChatPrompt {
    ChatPrompt(p.messages + [AiMessage(content)])
  }

  /** `addMessage(m)`: the same prompt for null, else a new prompt with m at the end. */
  function AddMessage(p: ChatPrompt, m: Option<Message>): ChatPrompt {
    if m.None? then p else ChatPrompt(p.messages + [m.value])
  }

  /** `addMessages(ms)`: the same prompt for null or an empty list, else a new prompt with ms at the end. */
  function AddMessages(p: ChatPrompt, ms: Option<seq<Message>>): ChatPrompt {
    if ms.None? || |ms.value| == 0 then p else ChatPrompt(p.messages + ms.value)
  }

  /** Adding a list at once is adding its messages one by one, in order. */
  lemma {:induction false} AddMessagesIsRepeatedAdd(p: ChatPrompt, ms: seq<Message>)
    ensures AddMessages(p, Some(ms)) == AddEach(p, ms)
    decreases |ms|
  {
    if |ms| > 0 {
      var init := ms[..|ms| - 1];
      AddMessagesIsRepeatedAdd(p, init);
      assert ms == init + [ms[|ms| - 1]];
      assert p.messages + ms == (p.messages + init) + [ms[|ms| - 1]];
    }
  }

  /** The reference for `AddMessagesIsRepeatedAdd`: `addMessage` applied to each message in turn. */
  function AddEach(p: ChatPrompt, ms: seq<Message>): ChatPrompt
    decreases |ms|
  {
    if |ms| == 0 then p else AddMessage(AddEach(p, ms[..|ms| - 1]), Some(ms[|ms| - 1]))
  }

  /** The `add*` operations leave the prompt they are called on as it was and put exactly one message last. */
  lemma AddKeepsOriginal(p: ChatPrompt, content: JString, m: Message)
    ensures var q := AddUserMessage(p, content);
      |q.messages| == |p.messages| + 1 && q.messages[..|p.messages|] == p.messages
      && q.messages[|p.messages|] == UserMessage(content)
    ensures var q := AddAssistantMessage(p, content);
      |q.messages| == |p.messages| + 1 && q.messages[..|p.messages|] == p.messages
      && q.messages[|p.messages|] == AiMessage(content)
    ensures var q := AddMessage(p, Some(m));
      |q.messages| == |p.messages| + 1 && q.messages[..|p.messages|] == p.messages && q.messages[|p.messages|] == m
    ensures AddMessage(p, None) == p && AddMessages(p, None) == p && AddMessages(p, Some([])) == p
  {
    assert AddUserMessage(p, content).messages[..|p.messages|] == p.messages;
    assert AddAssistantMessage(p, content).messages[..|p.messages|] == p.messages;
    assert AddMessage(p, Some(m)).messages[..|p.messages|] == p.messages;
  }

  /** `getSystemMessage`: the first message when it is a system message, else null. */
  function SystemMessageOf(p: ChatPrompt): (r: Option<Message>)
    ensures r.Some? <==> |p.messages| > 0 && p.messages[0].SystemMessage?
    ensures r.Some? ==> r.value == p.messages[0]
  {
    if |p.messages| > 0 && p.messages[0].SystemMessage? then Some(p.messages[0]) else None
  }

  /** `getLastMessage`: null exactly for the empty prompt, else the last message. */
  function LastMessage(p: ChatPrompt): (r: Option<Message>)
    ensures r.None? <==> |p.messages| == 0
    ensures r.Some? ==> r.value == p.messages[|p.messages| - 1]
  {
    if |p.messages| == 0 then None else Some(p.messages[|p.messages| - 1])
  }

  /** The index of the last user message, if any. */
  function LastUserIndex(ms: seq<Message>): (r: Option<nat>)
    ensures r.None? <==> forall i :: 0 <= i < |ms| ==> !ms[i].UserMessage?
    ensures r.Some? ==> (r.value < |ms| && ms[r.value].UserMessage?
      && forall j :: r.value < j < |ms| ==> !ms[j].UserMessage?)
    decreases |ms|
  {
    if |ms| == 0 then None
    else if ms[|ms| - 1].UserMessage? then Some(|ms| - 1)
    else LastUserIndex(ms[..|ms| - 1])
  }

  /** `getLastUserMessage`: the backward loop that stops at the first user message it meets. */
  method GetLastUserMessage(p: ChatPrompt) returns (r: Option<Message>)
    ensures LastUserIndex(p.messages).None? ==> r.None?
    ensures LastUserIndex(p.messages).Some? ==> r == Some(p.messages[LastUserIndex(p.messages).value])
  {
    var ms := p.messages;
    var i := |ms| - 1;
    while i >= 0
      invariant -1 <= i < |ms|
      invariant LastUserIndex(ms) == LastUserIndex(ms[..i + 1])
    {
      if ms[i].UserMessage? {
        return Some(ms[i]);
      }
      assert ms[..i + 1][..i] == ms[..i];
      i := i - 1;
    }
    assert ms[..0] == [];
    return None;
  }

  /** One shown message of `formatMessages`: its type value and its content cut to 20 chars. */
  function Entry(m: Message): string {
    Value(TypeOf(m)) + ": '" + Show(Truncate(m.content, 20)) + "'"
  }

  /** The entries of `ms`, separated by ", ". */
  function Joined(ms: seq<Message>): string
    decreases |ms|
  {
    if |ms| == 0 then ""
    else Joined(ms[..|ms| - 1]) + (if |ms| > 1 then ", " else "") + Entry(ms[|ms| - 1])
  }

  function Min(a: nat, b: nat): nat {
    if a < b then a else b
  }

  /** What `formatMessages` produces: at most three entries, then how many more there are. */
  function Formatted(ms: seq<Message>): string {
    if |ms| == 0 then "[]"
    else ("[" + Joined(ms[..Min(|ms|, 3)])
      + (if |ms| > 3 then ", ... " + IntToString(|ms| - 3) + " more" else "") + "]")
  }

  /** `formatMessages`: the StringBuilder loop. */
  method FormatMessages(ms: seq<Message>) returns (s: string)
    ensures s == Formatted(ms)
  {
    if |ms| == 0 {
      return "[]";
    }
    s := "[";
    var limit := Min(|ms|, 3);
    for i := 0 to limit
      invariant s == "[" + Joined(ms[..i])
    {
      var sep := if i > 0 then ", " else "";
      ghost var before := s;
      s := s + sep + Entry(ms[i]);
      JoinedStep(ms, i, before);
    }
    var rest := if |ms| > 3 then ", ... " + IntToString(|ms| - 3) + " more" else "";
    FormattedParts(ms);
    s := s + rest + "]";
  }

  lemma FormattedParts(ms: seq<Message>)
    requires |ms| > 0
    ensures Formatted(ms) == "[" + Joined(ms[..Min(|ms|, 3)])
      + (if |ms| > 3 then ", ... " + IntToString(|ms| - 3) + " more" else "") + "]"
  {
  }

  lemma JoinedStep(ms: seq<Message>, i: nat, before: string)
    requires i < |ms| && before == "[" + Joined(ms[..i])
    ensures before + (if i > 0 then ", " else "") + Entry(ms[i]) == "[" + Joined(ms[..i + 1])
  {
    var p := ms[..i + 1];
    assert p[..i] == ms[..i] && p[|p| - 1] == ms[i];
    Regroup("[", Joined(ms[..i]), if i > 0 then ", " else "", Entry(ms[i]));
  }

  lemma Regroup(a: string, b: string, c: string, d: string)
    ensures a + (b + c + d) == a + b + c + d
  {
  }

  /** Only the first three messages and the count show: two lists that agree on those format alike. */
  lemma FormattedShowsFirstThree(a: seq<Message>, b: seq<Message>)
    requires |a| == |b| && a[..Min(|a|, 3)] == b[..Min(|b|, 3)]
    ensures Formatted(a) == Formatted(b)
  {
  }

  /** With more than three messages the text ends with how many were left out. */
  lemma FormattedCountsRest(ms: seq<Message>)
    requires |ms| > 3
    ensures EndsWith(Formatted(ms), ", ... " + IntToString(|ms| - 3) + " more]")
  {
    var tail := ", ... " + IntToString(|ms| - 3) + " more]";
    var f := Formatted(ms);
    assert f == ("[" + Joined(ms[..3])) + tail;
    assert f[|f| - |tail|..] == tail;
  }

  /** `ChatPrompt.toString`. */
  function ChatPromptToString(p: ChatPrompt): string {
    "ChatPrompt{messageCount=" + IntToString(|p.messages|) + ", messages=" + Formatted(p.messages) + "}"
  }

  /** A message slot of `SimplePrompt`: `None` when the message reference is null, else its content. */
  datatype SimplePrompt = SimplePrompt(system: Option<JString>, user: Option<JString>, ai: Option<JString>)

  function SlotCount(s: Option<JString>): nat {
    if s.Some? then 1 else 0
  }

  /** Position of a message in a `SimplePrompt`'s list. */
  function Rank(m: Message): nat {
    match m
    case SystemMessage(_) => 0
    case UserMessage(_) => 1
    case AiMessage(_) => 2
  }

  /** The list the private constructor assembles: each present slot once, system then user then assistant. */
  function SimpleMessages(p: SimplePrompt): (ms: seq<Message>)
    ensures |ms| == SlotCount(p.system) + SlotCount(p.user) + SlotCount(p.ai)
    ensures forall i, j :: 0 <= i < j < |ms| ==> Rank(ms[i]) < Rank(ms[j])
    ensures forall m :: m in ms <==>
      || (m.SystemMessage? && p.system == Some(m.content))
      || (m.UserMessage? && p.user == Some(m.content))
      || (m.AiMessage? && p.ai == Some(m.content))
  {
    (if p.system.Some? then [SystemMessage(p.system.value)] else [])
    + (if p.user.Some? then [UserMessage(p.user.value)] else [])
    + (if p.ai.Some? then [AiMessage(p.ai.value)] else [])
  }

  /** `SimplePrompt.user(c)`. */
  function UserPrompt(content: JString): SimplePrompt {
    SimplePrompt(None, Some(content), None)
  }

  /** `SimplePrompt.of(s, u)`: both messages are created even when a content is null. */
  function SystemUserPrompt(systemContent: JString, userContent: JString): SimplePrompt {
    SimplePrompt(Some(systemContent), Some(userContent), None)
  }

  /** `user(c)` holds one user message; `of(s, u)` a system then a user message, whatever the contents. */
  lemma SimpleFactories(s: JString, u: JString)
    ensures SimpleMessages(UserPrompt(u)) == [UserMessage(u)]
    ensures SimpleMessages(SystemUserPrompt(s, u)) == [SystemMessage(s), UserMessage(u)]
  {
  }

  /** `toChatPrompt`: a `ChatPrompt` over the same list. */
  function ToChatPrompt(p: SimplePrompt): ChatPrompt {
    ChatPromptOf(Some(SimpleMessages(p)))
  }

  /** The toString form of one slot: null, or its content cut to 30 chars, quoted. */
  function SlotText(s: Option<JString>): string {
    if s.None? then "null" else "'" + Show(Truncate(s.value, 30)) + "'"
  }

  /** `SimplePrompt.toString`. */
  function SimplePromptToString(p: SimplePrompt): string {
    "SimplePrompt{systemMessage=" + SlotText(p.system) + ", userMessage=" + SlotText(p.user)
    + ", aiMessage=" + SlotText(p.ai) + "}"
  }

  /** A slot whose content is longer than 30 chars shows its first 30 chars and "..."; a shorter one shows whole. */
  lemma SlotTextTruncates(c: string)
    ensures |c| > 30 ==> SlotText(Some(Some(c))) == "'" + c[..30] + "...'"
    ensures |c| <= 30 ==> SlotText(Some(Some(c))) == "'" + c + "'"
  {
    if |c| > 30 {
      var t := Truncate(Some(c), 30).value;
      assert t[..30] == c[..30] && t[30..] == "...";
      assert t == c[..30] + "...";
    }
  }

  /** The builder of `SimplePrompt`: setting a slot to null content removes that message. */
  class SimplePromptBuilder {
    var system: Option<JString>
    var user: Option<JString>
    var ai: Option<JString>

    constructor ()
      ensures system.None? && user.None? && ai.None?
    {
      system, user, ai := None, None, None;
    }

    method System(content: JString) returns (b: SimplePromptBuilder)
      modifies this`system
      ensures b == this
      ensures content.None? ==> system.None?
      ensures content.Some? ==> system == Some(content)
    {
      system := if content.Some? then Some(content) else None;
      b := this;
    }

    method User(content: JString) returns (b: SimplePromptBuilder)
      modifies this`user
      ensures b == this
      ensures content.None? ==> user.None?
      ensures content.Some? ==> user == Some(content)
    {
      user := if content.Some? then Some(content) else None;
      b := this;
    }

    method Assistant(content: JString) returns (b: SimplePromptBuilder)
      modifies this`ai
      ensures b == this
      ensures content.None? ==> ai.None?
      ensures content.Some? ==> ai == Some(content)
    {
      ai := if content.Some? then Some(content) else None;
      b := this;
    }

    /** `build`: the prompt of the current slots; later builder changes do not reach it. */
    function Build(): SimplePrompt
      reads this
    {
      SimplePrompt(system, user, ai)
    }
  }

  /** Either kind of `Prompt`. */
  datatype Prompt = Simple(simple: SimplePrompt) | Chat(chat: ChatPrompt)

  /** `getMessages`. */
  function Messages(p: Prompt): seq<Message> {
    match p
    case Simple(s) => SimpleMessages(s)
    case Chat(c) => c.messages
  }

  /** `size()`. */
  function Size(p: Prompt): nat {
    |Messages(p)|
  }

  /** `isEmpty()`: exactly when the size is 0. */
  predicate IsEmpty(p: Prompt)
    ensures IsEmpty(p) <==> Size(p) == 0
  {
    Messages(p) == []
  }

  /** `Prompt.of(text)`. */
  function PromptOf(text: JString): Prompt {
    Simple(UserPrompt(text))
  }

  /** `Prompt.of(system, user)`. */
  function PromptOfPair(systemText: JString, userText: JString): Prompt {
    Simple(SystemUserPrompt(systemText, userText))
  }

  /** `Prompt.of(list)` and `Prompt.of(messages...)`. */
  function PromptOfList(ms: Option<seq<Message>>): Prompt {
    Chat(ChatPromptOf(ms))
  }

  /** What the `Prompt` factories hold, and `toChatPrompt` keeps the same list. */
  lemma PromptFactories(text: JString, s: JString, ms: seq<Message>, sp: SimplePrompt)
    ensures Messages(PromptOf(text)) == [UserMessage(text)] && Size(PromptOf(text)) == 1
    ensures Messages(PromptOfPair(s, text)) == [SystemMessage(s), UserMessage(text)]
    ensures Messages(PromptOfList(None)) == [] && IsEmpty(PromptOfList(None))
    ensures Messages(PromptOfList(Some(ms))) == ms
    ensures Messages(Chat(ToChatPrompt(sp))) == Messages(Simple(sp))
  {
  }

  /** `ChatPromptBuilder`: a message list appended to (or cleared) in place. */
  class ChatPromptBuilder {
    var messages: seq<Message>

    constructor ()
      ensures messages == []
    {
      messages := [];
    }

    /** `system(c)`: appends a system message unless c is null. */
    method System(content: JString) returns (b: ChatPromptBuilder)
      modifies this
      ensures b == this
      ensures messages == old(messages) + (if content.Some? then [SystemMessage(content)] else [])
    {
      if content.Some? {
        messages := messages + [SystemMessage(content)];
      }
      b := this;
    }

    method User(content: JString) returns (b: ChatPromptBuilder)
      modifies this
      ensures b == this
      ensures messages == old(messages) + (if content.Some? then [UserMessage(content)] else [])
    {
      if content.Some? {
        messages := messages + [UserMessage(content)];
      }
      b := this;
    }

    method Assistant(content: JString) returns (b: ChatPromptBuilder)
      modifies this
      ensures b == this
      ensures messages == old(messages) + (if content.Some? then [AiMessage(content)] else [])
    {
      if content.Some? {
        messages := messages + [AiMessage(content)];
      }
      b := this;
    }

    /** `add(m)`: null is ignored. */
    method Add(m: Option<Message>) returns (b: ChatPromptBuilder)
      modifies this
      ensures b == this
      ensures messages == old(messages) + (if m.Some? then [m.value] else [])
    {
      if m.Some? {
        messages := messages + [m.value];
      }
      b := this;
    }

    /** `addAll(ms)`: null is ignored. */
    method AddAll(ms: Option<seq<Message>>) returns (b: ChatPromptBuilder)
      modifies this
      ensures b == this
      ensures messages == old(messages) + ms.GetOr([])
    {
      if ms.Some? {
        messages := messages + ms.value;
      }
      b := this;
    }

    /** `from(p)`: appends the prompt's messages; null is ignored. */
    method From(p: Option<Prompt>) returns (b: ChatPromptBuilder)
      modifies this
      ensures b == this
      ensures messages == old(messages) + (if p.Some? then Messages(p.value) else [])
    {
      if p.Some? {
        messages := messages + Messages(p.value);
      }
      b := this;
    }

    /** `turn(u, a)`: the user message, then the assistant message, each skipped when null. */
    method Turn(userContent: JString, assistantContent: JString) returns (b: ChatPromptBuilder)
      modifies this
      ensures b == this
      ensures messages == old(messages)
        + (if userContent.Some? then [UserMessage(userContent)] else [])
        + (if assistantContent.Some? then [AiMessage(assistantContent)] else [])
    {
      b := User(userContent);
      b := Assistant(assistantContent);
    }

    function Size(): nat
      reads this
    {
      |messages|
    }

    predicate IsEmpty()
      reads this
      ensures IsEmpty() <==> Size() == 0
    {
      messages == []
    }

    method Clear() returns (b: ChatPromptBuilder)
      modifies this
      ensures b == this && messages == []
    {
      messages := [];
      b := this;
    }

    /** `build`: a prompt holding a copy of the current list. */
    function Build(): ChatPrompt
      reads this
    {
      ChatPromptOf(Some(messages))
    }
  }

  /** `toBuilder`: a new builder filled by adding each message in turn; building it gives the same prompt back. */
  method ToBuilder(p: ChatPrompt) returns (b: ChatPromptBuilder)
    ensures fresh(b)
    ensures b.messages == p.messages && b.Build() == p
  {
    b := new ChatPromptBuilder();
    for i := 0 to |p.messages|
      invariant b.messages == p.messages[..i]
    {
      var _ := b.Add(Some(p.messages[i]));
      assert p.messages[..i + 1] == p.messages[..i] + [p.messages[i]];
    }
    assert p.messages[..|p.messages|] == p.messages;
  }

  /** `Prompt.chat()`: an empty builder. */
  method NewChat() returns (b: ChatPromptBuilder)
    ensures fresh(b) && b.messages == []
  {
    b := new ChatPromptBuilder();
  }

  /** `Prompt.chat(system)`: a builder holding the system message when it is not null. */
  method NewChatWithSystem(systemText: JString) returns (b: ChatPromptBuilder)
    ensures fresh(b) && b.messages == (if systemText.Some? then [SystemMessage(systemText)] else [])
  {
    b := new ChatPromptBuilder();
    b := b.System(systemText);
  }
}
