/**
 * The exceptions of the `io.github.llmkit` generation.  Each Java
 * exception class that the modelled code throws or inspects is a
 * constructor; `Unchecked` stands for a runtime exception raised inside
 * the JSON library or by a null dereference, and `Foreign` for any other
 * exception that is not an `LLMKitException` (a transport failure, an
 * exception thrown by a user's callable).
 */
module FlatErrors {
  import opened Wrappers
  import opened JavaText

  datatype Failure =
    | Kit(errorCode: JString, message: JString, cause: Option<Failure>)
    | Chat(message: JString, rawResponse: JString, cause: Option<Failure>)
    | Provider(message: JString, providerErrorCode: JString, providerErrorType: JString,
               httpStatusCode: Option<int>, rawResponse: JString)
    | Parse(message: JString, rawContent: JString, cause: Option<Failure>)
    | Configuration(message: JString)
    | IllegalArgument(message: JString)
    | Unchecked
    | Foreign(id: nat, message: JString)

  /** `instanceof LLMKitException`: the framework's own exceptions. */
  predicate IsKit(f: Failure) {
    f.Kit? || f.Chat? || f.Provider? || f.Parse? || f.Configuration?
  }

  /** `instanceof ChatException`: `ChatException` and its subclass `ProviderException`. */
  predicate IsChatException(f: Failure) {
    f.Chat? || f.Provider?
  }

  /** `getMessage()`. */
  function MessageOf(f: Failure): JString {
    match f
    case Unchecked => None
    case _ => f.message
  }

  /** Every `ChatException` is an `LLMKitException`. */
  lemma ChatExceptionIsKit(f: Failure)
    ensures IsChatException(f) ==> IsKit(f)
  {
  }

  /** `new ProviderException(message, code, type, status, rawResponse)`. */
  function NewProvider(message: JString, code: JString, errorType: JString, status: Option<int>,
                       rawResponse: JString): (f: Failure)
    ensures IsChatException(f) && IsKit(f)
    ensures f.Provider? && f.message == message && f.providerErrorCode == code && f.providerErrorType == errorType
    ensures f.Provider? && f.httpStatusCode == status && f.rawResponse == rawResponse
  {
    Provider(message, code, errorType, status, rawResponse)
  }

  /** The four-argument constructor: the HTTP status is null. */
  function NewProvider4(message: JString, code: JString, errorType: JString, rawResponse: JString): (f: Failure)
    ensures f == NewProvider(message, code, errorType, None, rawResponse)
    ensures f.Provider? && f.httpStatusCode.None?
  {
    NewProvider(message, code, errorType, None, rawResponse)
  }

  /** `isRateLimitError`: the provider type is "rate_limit_exceeded" or the status is 429. */
  predicate IsRateLimitError(f: Failure)
    requires f.Provider?
  {
    f.providerErrorType == Some("rate_limit_exceeded") || f.httpStatusCode == Some(429)
  }

  /** `isAuthenticationError`: code "invalid_api_key", type "authentication_error", or status 401. */
  predicate IsAuthenticationError(f: Failure)
    requires f.Provider?
  {
    || f.providerErrorCode == Some("invalid_api_key")
    || f.providerErrorType == Some("authentication_error")
    || f.httpStatusCode == Some(401)
  }

  /**
   * The rate-limit test looks at the type and the status only: an error
   * code of "rate_limit_exceeded" alone does not make a rate-limit error,
   * while status 429 does whatever the code and type say.
   */
  lemma RateLimitIgnoresCode(message: JString, code: JString, errorType: JString, raw: JString)
    ensures !IsRateLimitError(NewProvider4(message, Some("rate_limit_exceeded"), Some("server_error"), raw))
    ensures IsRateLimitError(NewProvider(message, code, errorType, Some(429), raw))
    ensures errorType != Some("rate_limit_exceeded") ==> !IsRateLimitError(NewProvider4(message, code, errorType, raw))
  {
  }

  /**
   * Each of the three signals alone makes an authentication error; with
   * none of them (and no status) it is not one.
   */
  lemma AuthenticationSignals(message: JString, code: JString, errorType: JString, raw: JString)
    ensures IsAuthenticationError(NewProvider4(message, Some("invalid_api_key"), errorType, raw))
    ensures IsAuthenticationError(NewProvider4(message, code, Some("authentication_error"), raw))
    ensures IsAuthenticationError(NewProvider(message, code, errorType, Some(401), raw))
    ensures IsAuthenticationError(NewProvider4(message, code, errorType, raw)) <==>
      code == Some("invalid_api_key") || errorType == Some("authentication_error")
  {
  }

  /** `ConfigurationException.missingField(name)`. */
  function MissingField(name: string): (f: Failure)
    ensures f.Configuration? && IsKit(f) && !IsChatException(f)
    ensures f.Configuration? && f.message == Some("Required configuration field is missing: " + name)
  {
    Configuration(Some("Required configuration field is missing: " + name))
  }

  /** `ParseException.invalidJson(raw, cause)`: not a `ChatException`. */
  function InvalidJson(raw: JString, cause: Failure): (f: Failure)
    ensures f.Parse? && IsKit(f) && !IsChatException(f)
    ensures f.Parse? && f.message == Some("Failed to parse JSON response") && f.rawContent == raw && f.cause == Some(cause)
  {
    Parse(Some("Failed to parse JSON response"), raw, Some(cause))
  }
}
