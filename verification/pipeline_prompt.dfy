/**
 * The messages of the `me.maydeng.llmkit` generation and its
 * `SimplePrompt`, which holds at most one system, one user and one
 * assistant message.
 */
module PipelinePrompt {
  import opened Wrappers
  import opened JavaText

  /** The runtime class of a message: `UserMessage`, `SystemMessage`, `AiMessage`, or another subclass. */
  datatype Kind = UserKind | SystemKind | AiKind | OtherKind

  datatype Message = Message(kind: Kind, content: JString)

  /** Position of a kind in `getMessages`. */
  function Rank(k: Kind): nat {
    match k
    case SystemKind => 0
    case UserKind => 1
    case AiKind => 2
    case OtherKind => 3
  }

  /** A slot is `None` when the message reference is null, else `Some(content)`. */
  function SlotCount(s: Option<JString>): nat {
    if s.Some? then 1 else 0
  }

  class SimplePrompt {
    var systemMessage: Option<JString>
    var userMessage: Option<JString>
    var aiMessage: Option<JString>

    /** `new SimplePrompt()`: a user message with null content, nothing else. */
    constructor ()
      ensures systemMessage.None? && userMessage == Some(None) && aiMessage.None?
    {
      systemMessage, userMessage, aiMessage := None, Some(None), None;
    }

    /** `new SimplePrompt(content)`: a user message with that content, nothing else. */
    constructor WithContent(content: JString)
      ensures systemMessage.None? && userMessage == Some(content) && aiMessage.None?
    {
      systemMessage, userMessage, aiMessage := None, Some(content), None;
    }

    method SetSystemMessage(m: Option<JString>)
      modifies this`systemMessage
      ensures systemMessage == m
    {
      systemMessage := m;
    }

    method SetUserMessage(m: Option<JString>)
      modifies this`userMessage
      ensures userMessage == m
    {
      userMessage := m;
    }

    method SetAiMessage(m: Option<JString>)
      modifies this`aiMessage
      ensures aiMessage == m
    {
      aiMessage := m;
    }

    /**
     * `getMessages`: a new list holding each present slot once, with its
     * content, in the order system, user, assistant.
     */
    function Messages(): (ms: seq<Message>)
      reads this
      ensures |ms| == SlotCount(systemMessage) + SlotCount(userMessage) + SlotCount(aiMessage)
      ensures forall i, j :: 0 <= i < j < |ms| ==> Rank(ms[i].kind) < Rank(ms[j].kind)
      ensures forall m :: m in ms <==>
        || (m.kind == SystemKind && systemMessage == Some(m.content))
        || (m.kind == UserKind && userMessage == Some(m.content))
        || (m.kind == AiKind && aiMessage == Some(m.content))
    {
      (if systemMessage.Some? then [Message(SystemKind, systemMessage.value)] else [])
      + (if userMessage.Some? then [Message(UserKind, userMessage.value)] else [])
      + (if aiMessage.Some? then [Message(AiKind, aiMessage.value)] else [])
    }
  }
}
