/** `me.maydeng.llmkit.core.model.client.StreamContext`: what one stream exposes to its listener. */
module PipelineContext {
  import opened Wrappers
  import opened PipelineFaults
  import opened PipelineMessages

  class StreamContext {
    /** The chat model, chat context and stream client, by identity; fixed at construction. */
    const chatModel: nat
    const chatContext: nat
    const client: nat
    var aiMessage: AiMessage?
    var throwable: Option<Fault>

    /** `isError()`: a throwable has been recorded. */
    predicate IsError()
      reads this
    {
      throwable.Some?
    }

    /** A fresh context keeps the three references and has no message and no throwable. */
    constructor (chatModel: nat, chatContext: nat, client: nat)
      ensures this.chatModel == chatModel && this.chatContext == chatContext && this.client == client
      ensures aiMessage == null && throwable.None? && !IsError()
    {
      this.chatModel, this.chatContext, this.client := chatModel, chatContext, client;
      aiMessage, throwable := null, None;
    }

    method SetAiMessage(m: AiMessage?)
      modifies this`aiMessage
      ensures aiMessage == m
    {
      aiMessage := m;
    }

    /** After `setThrowable(t)` the context is in error exactly when `t` is non-null. */
    method SetThrowable(t: Option<Fault>)
      modifies this`throwable
      ensures throwable == t && (IsError() <==> t.Some?)
    {
      throwable := t;
    }
  }
}
