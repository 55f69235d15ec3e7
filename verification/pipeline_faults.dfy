/**
 * The exceptions that travel through the `me.maydeng.llmkit` pipeline.  Java
 * throws them; the model returns them as the `Threw` side of an `Outcome`.
 */
module PipelineFaults {
  import opened JavaText

  datatype Fault =
    /** An I/O failure reported by the HTTP or SSE transport (told apart by an id). */
    | Transport(id: nat)
    /** `JSON.parseObject` rejected the text. */
    | MalformedJson
    /** A JSONPath result that is not a `String` met the `(String)` cast. */
    | ClassCast
    /** A method of the user's `StreamResponseListener` threw. */
    | ListenerThrew
    /** `IllegalArgumentException` with its message. */
    | IllegalArgument(reason: string)
    /** `new RuntimeException(message)`. */
    | Runtime(message: JString)
    /** `new RuntimeException(cause)`, as the retry helper throws it. */
    | Wrapped(cause: Fault)
}
