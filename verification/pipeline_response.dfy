/**
 * `me.maydeng.llmkit.core.model.chat.response.AiMessageResponse` together with
 * the error flag and message of its `AbstractMessageResponse` base.
 */
module PipelineResponse {
  import opened Wrappers
  import opened JavaText
  import opened PipelineMessages

  /**
   * A response as the listener or caller sees it.  `context` identifies the
   * chat context; `message` is the state of the carried `AiMessage` when
   * the response was handed over.
   */
  datatype Response = Response(
    context: nat,
    rawText: JString,
    message: Option<AiSnap>,
    isError: bool,
    errorMessage: JString)

  /** `new AiMessageResponse(context, rawText, message)`. */
  function NewResponse(context: nat, rawText: JString, message: Option<AiSnap>): (r: Response)
    ensures !r.isError && r.errorMessage.None?
    ensures r.context == context && r.rawText == rawText && r.message == message
  {
    Response(context, rawText, message, false, None)
  }

  /** `AiMessageResponse.error(context, rawText, errorMessage)`. */
  function ErrorResponse(context: nat, rawText: JString, errorMessage: JString): (r: Response)
    ensures r.isError && r.errorMessage == errorMessage && r.message.None?
    ensures r.context == context && r.rawText == rawText
  {
    NewResponse(context, rawText, None).(isError := true, errorMessage := errorMessage)
  }

  /** A response made by one of the two factories: an error never carries a message. */
  predicate WellFormed(r: Response) {
    r.isError ==> r.message.None?
  }

  lemma FactoriesWellFormed(context: nat, rawText: JString, message: Option<AiSnap>, errorMessage: JString)
    ensures WellFormed(NewResponse(context, rawText, message))
    ensures WellFormed(ErrorResponse(context, rawText, errorMessage))
    ensures NewResponse(context, rawText, message).message == message
  {
  }
}
