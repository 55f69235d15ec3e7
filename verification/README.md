# llmkit in Dafny

A model of the two generations of `llmkit`, a Java client for OpenAI-compatible chat APIs, with proofs about what each part does.

- **`me.maydeng.llmkit`** (modules `Pipeline*`) is the pipeline generation. `BaseChatModel` folds a list of interceptors around a terminal client call. `OpenAIChatClient` posts once or through `Retryer`, and sorts the reply into an empty response, a provider error or a success. `OpenAIChatRequestSpecBuilder` builds the request from the prompt, the `ChatOptions` and the `ChatConfig`. `BaseStreamClientListener` folds the SSE events of a stream into one growing `AiMessage`: it hands each delta to the user's listener, then one final aggregate message, then one stop.
- **`io.github.llmkit`** (modules `Flat*`) is the flatter generation. `OpenAIChatModel.call` and `stream` build the request body, retry with their own `Retryer`, and parse the reply. Around them sit the immutable `ChatOptions` with its builder, the configuration builder, the `ChatPrompt`, `ChatPromptBuilder` and `SimplePrompt` conversation lists, `Message` and `MessageType`, and `ProviderException`.

Three modules serve both generations:

- `Wrappers` holds `Option` and `Outcome`, a value or the exception thrown.
- `JavaText` holds the Java `String` operations the code relies on: `trim`, `equalsIgnoreCase` and integer rendering.
- `Json` holds parsed JSON as a tree.

A Java `String` that may be null is `Option<string>`.

How the model represents things:

- **Objects the code changes in place are classes.** This covers the stream listener and its context, `AiMessage`, `SimplePrompt`, the options and configuration objects, the `Maps` body builder, the builders, the chat client and the chat model. Their methods are proved against pure functions of their old state. The listener is specified by `PipelineStream.Run`, a fold over transport events whose properties are lemmas.
- **Loops stay loops.** This covers the two retry loops, message serialisation, `fromValue`, `getLastUserMessage` and `formatMessages`. Each is proved equal to a reference function.
- **Values that do not change are datatypes.** This covers the io `ChatOptions`, `ChatPrompt`, messages, exceptions and parsed JSON.

What the environment supplies becomes parameters of the model:

- `post(k)` is the outcome of the k-th HTTP POST, and `start(k)` that of the k-th stream start.
- `events` are the SSE events delivered to a listener.
- `parseJson` / `parseObject` is what the JSON library makes of a text.
- `interrupts(k)` says whether the k-th `Thread.sleep` is interrupted. Sleeps are counted rather than waited.
- The thread-local chat context is a `ChatContextHolder` object passed explicitly.
- An interceptor is described by what it does: whether it calls `next`, how it maps the answer, and what it answers when it does not call `next`. The chain leaves a trace of entries, exits and the client call.

Behaviours of the code that the model keeps as written:

- In `me.maydeng.llmkit`, `BaseStreamClientListener.onMessage` does not skip a malformed stream payload. It reports the failure to the user's `onFailure` and then runs the stop sequence (`PipelineStream.BadPayloadFailsThenStops`). Only `io.github.llmkit` skips a bad chunk and goes on (`FlatModel.StreamListener.OnMessage`).
- `BaseStreamClientListener.onFailure` has no flag check. A failure delivered after the stop still reaches the user's listener, so `onStop` is not always the last notification (`PipelineStream.FailureOnlyRecords`).
- When the user's `onFailure` throws inside the `catch` of `onMessage`, the `onStop` call after it never runs. The stream then stays open until the transport's own stop (`PipelineStream.BadPayloadFailsThenStops`, `PipelineStream.RejectedDeltaStopsStream`).
- Neither `Retryer` aborts on an interrupted sleep. Both restore the interrupt flag and go on retrying (`PipelineRetry.SleepQuietly`, `FlatRetry.Retry`).
- An exhausted retry does not rethrow the last attempt's exception as it is. The `me` `Retryer` wraps it in a `RuntimeException`. The `io` `Retryer` rethrows an `LLMKitException` unchanged and wraps anything else with the message "Operation failed after N retries".
- With retry disabled, `io` `OpenAIChatModel.call` forces only the retry count to 0. The delay is still resolved, though with no retries it is never used (`FlatModel.RetryDisabledMeansZeroCount`).
- `me` `OpenAIChatRequestSpecBuilder` falls back to the configured model when the option's model is blank. `io` `OpenAIChatModel` falls back only for null or "" (`FlatOptions.BlankModelKept`).
- In `me` `OpenAIChatClient.chatStream`, a stream start that still fails (directly, or after the `Retryer` gives up) throws out through every interceptor's `interceptStream` and out of `BaseChatModel.chatStream` (`PipelineChain.EscapeSkipsExits`).
- In `io` `parseResponse`, the "No choices in response" `ParseException` is thrown inside the `try`. It is not a `ChatException`, so the generic `catch` wraps it again as "Failed to parse JSON response". The model keeps that double wrapping (`FlatModel.NoChoicesRewrapped`).

## Model

| member | source | states |
|---|---|---|
| JavaText.TrimStart | src/main/java/me/maydeng/llmkit/core/util/StringUtil.java:9 | the leading part `trim` removes is exactly a run of chars at most U+0020, and what is left starts with a char above U+0020 |
| JavaText.TrimEnd | src/main/java/me/maydeng/llmkit/core/util/StringUtil.java:9 | the trailing part `trim` removes is exactly a run of chars at most U+0020, and what is left ends with a char above U+0020 |
| JavaText.TrimEmptyIff | src/main/java/me/maydeng/llmkit/core/util/StringUtil.java:9 | `trim()` is empty iff every char is at most U+0020 |
| JavaText.NatToString | src/main/java/io/github/llmkit/util/Retryer.java:51 | the decimal rendering of a count is a non-empty string of digits without a leading zero whose value is the count |
| Json.StringValue | src/main/java/me/maydeng/llmkit/core/util/Maps.java:15-18 | a Java null string is stored as a JSON null, any other string as that string |
| Json.Eval | src/main/java/me/maydeng/llmkit/core/parser/impl/DefaultAiMessageParser.java:41 | a JSONPath with no steps selects the document itself; otherwise the first step selects a child (or nothing, giving null) and the rest of the path is evaluated from that child |
| Json.ObjectMember | src/main/java/me/maydeng/llmkit/core/model/client/OpenAIChatClient.java:70 | `getJSONObject` gives null exactly when the member is absent, null, or the text "" or "null" (any case); an object it gives is the member itself or the parse of the member's text; it refuses as the wrong kind exactly a member that is neither an object nor a string |
| Json.CastToString | src/main/java/me/maydeng/llmkit/core/parser/impl/DefaultAiMessageParser.java:41-45 | the `(String)` cast of a path result throws iff the value is present and neither null nor a string; it yields null iff nothing or a JSON null was found |
| PipelineStrings.HasText | src/main/java/me/maydeng/llmkit/core/util/StringUtil.java:8-10 | `hasText` holds iff the string is non-null and has a char above U+0020 |
| PipelineStrings.NoText | src/main/java/me/maydeng/llmkit/core/util/StringUtil.java:12-14 | `noText` holds iff the string is null or has only chars at most U+0020, the negation of `hasText` |
| PipelineStrings.Append | src/main/java/me/maydeng/llmkit/core/util/StringUtil.java:16-24 | the text of the result (null read as "") is base followed by delta; the result is null iff base is null and delta null or empty; an empty delta gives base unchanged, an empty base gives the delta itself |
| PipelineConfig.Options.ModelOrDefault | src/main/java/me/maydeng/llmkit/core/model/chat/ChatOptions.java:26-28 | the model when it has text, else the default |
| PipelineConfig.Options.IncludeUsageOrDefault | src/main/java/me/maydeng/llmkit/core/model/chat/ChatOptions.java:54-56 | the stored flag when non-null, else the default |
| PipelineConfig.Options.RetryEnabledOrDefault | src/main/java/me/maydeng/llmkit/core/model/chat/ChatOptions.java:74-76 | the stored flag when non-null, else the default |
| PipelineConfig.Options.RetryCountOrDefault | src/main/java/me/maydeng/llmkit/core/model/chat/ChatOptions.java:82-84 | the stored count when non-null, else the default |
| PipelineConfig.Options.RetryInitialDelayMsOrDefault | src/main/java/me/maydeng/llmkit/core/model/chat/ChatOptions.java:90-92 | the stored delay when non-null, else the default |
| PipelineConfig.BlankModelGivesDefault | src/main/java/me/maydeng/llmkit/core/model/chat/ChatOptions.java:26-28 | a model of whitespace only is treated as absent: the default is returned |
| PipelineConfig.ChatOptions.constructor | src/main/java/me/maydeng/llmkit/core/model/chat/ChatOptions.java:8-16 | new options have temperature 0.5, are not streaming, and every other field is null |
| PipelineConfig.ChatOptions.SetModel | src/main/java/me/maydeng/llmkit/core/model/chat/ChatOptions.java:22-24 | writes the model field only |
| PipelineConfig.ChatOptions.SetTemperature | src/main/java/me/maydeng/llmkit/core/model/chat/ChatOptions.java:34-36 | writes the temperature field only |
| PipelineConfig.ChatOptions.SetMaxTokens | src/main/java/me/maydeng/llmkit/core/model/chat/ChatOptions.java:42-44 | writes the max-tokens field only |
| PipelineConfig.ChatOptions.SetIncludeUsage | src/main/java/me/maydeng/llmkit/core/model/chat/ChatOptions.java:50-52 | writes the include-usage field only |
| PipelineConfig.ChatOptions.SetExtra | src/main/java/me/maydeng/llmkit/core/model/chat/ChatOptions.java:62-64 | writes the extra map only |
| PipelineConfig.ChatOptions.SetStreaming | src/main/java/me/maydeng/llmkit/core/model/chat/ChatOptions.java:70-72 | the options afterwards are the options before with only the streaming flag replaced |
| PipelineConfig.ChatOptions.SetRetryEnabled | src/main/java/me/maydeng/llmkit/core/model/chat/ChatOptions.java:78-80 | writes the retry-enabled field only |
| PipelineConfig.ChatOptions.SetRetryCount | src/main/java/me/maydeng/llmkit/core/model/chat/ChatOptions.java:86-88 | writes the retry-count field only |
| PipelineConfig.ChatOptions.SetRetryInitialDelayMs | src/main/java/me/maydeng/llmkit/core/model/chat/ChatOptions.java:94-96 | writes the retry-delay field only |
| PipelineConfig.NormalizeEndpoint | src/main/java/me/maydeng/llmkit/core/model/config/BaseModelConfig.java:28-33 | null stays null; an endpoint ending in "/" loses exactly that one char; any other endpoint is kept |
| PipelineConfig.NormalizePath | src/main/java/me/maydeng/llmkit/core/model/config/BaseModelConfig.java:39-44 | null stays null; a stored path always starts with "/"; a path with one is kept, any other gets "/" in front |
| PipelineConfig.NormalizePathIdempotent | src/main/java/me/maydeng/llmkit/core/model/config/BaseModelConfig.java:39-44 | setting a path twice is the same as setting it once |
| PipelineConfig.NormalizeEndpointStripsOne | src/main/java/io/github/llmkit/core/config/BaseModelConfig.java:37-42 | an endpoint ending in "//" keeps one "/": only one char is stripped |
| PipelineConfig.UrlJoinHasOneSlash | src/main/java/me/maydeng/llmkit/core/model/config/BaseModelConfig.java:77-79 | when the endpoint does not end in "//" and the path does not start with "//", endpoint and path meet at exactly one "/" in the full URL |
| PipelineConfig.ChatConfig.constructor | src/main/java/me/maydeng/llmkit/core/model/chat/ChatConfig.java:6-9 | a new configuration has logging and retry on, 3 retries, a 1000 ms delay, and every string field null |
| PipelineConfig.ChatConfig.SetProvider | src/main/java/me/maydeng/llmkit/core/model/config/BaseModelConfig.java:20-22 | writes the provider field only |
| PipelineConfig.ChatConfig.SetEndpoint | src/main/java/me/maydeng/llmkit/core/model/config/BaseModelConfig.java:28-33 | stores the normalised endpoint, touching no other field |
| PipelineConfig.ChatConfig.SetRequestPath | src/main/java/me/maydeng/llmkit/core/model/config/BaseModelConfig.java:39-44 | stores the normalised path, touching no other field |
| PipelineConfig.ChatConfig.SetModel | src/main/java/me/maydeng/llmkit/core/model/config/BaseModelConfig.java:50-52 | a non-null model is stored trimmed; null stays null |
| PipelineConfig.ChatConfig.SetApiKey | src/main/java/me/maydeng/llmkit/core/model/config/BaseModelConfig.java:58-60 | writes the API key field only |
| PipelineConfig.ChatConfig.SetCustomProperties | src/main/java/me/maydeng/llmkit/core/model/config/BaseModelConfig.java:66-68 | stores a copy of the map, or null |
| PipelineConfig.ChatConfig.PutCustomProperty | src/main/java/me/maydeng/llmkit/core/model/config/BaseModelConfig.java:70-75 | creates the map when null, then inserts or overwrites the key, keeping every other entry |
| PipelineConfig.ChatConfig.SetLogEnabled | src/main/java/me/maydeng/llmkit/core/model/chat/ChatConfig.java:15-17 | writes the logging flag only |
| PipelineConfig.ChatConfig.SetRetryEnabled | src/main/java/me/maydeng/llmkit/core/model/chat/ChatConfig.java:23-25 | writes the retry flag only |
| PipelineConfig.ChatConfig.SetRetryCount | src/main/java/me/maydeng/llmkit/core/model/chat/ChatConfig.java:31-33 | writes the retry count only |
| PipelineConfig.ChatConfig.SetRetryInitialDelayMs | src/main/java/me/maydeng/llmkit/core/model/chat/ChatConfig.java:39-41 | writes the retry delay only |
| PipelineConfig.ChatConfig.FullUrl | src/main/java/me/maydeng/llmkit/core/model/config/BaseModelConfig.java:77-79 | the URL starts with the endpoint and ends with the path (null read as ""), and its length is the sum of theirs |
| PipelineConfig.ToStringHidesApiKey | src/main/java/me/maydeng/llmkit/core/model/config/BaseModelConfig.java:81-91 | two configurations differing only in the API key print identically, so the key never shows |
| PipelineConfig.EqualsIgnoresRetrySettings | src/main/java/me/maydeng/llmkit/core/model/config/BaseModelConfig.java:93-104 | configurations with equal base fields are equal both ways, whatever their retry and log settings |
| PipelineMessages.MergeSnap | src/main/java/me/maydeng/llmkit/core/message/AiMessage.java:32-37 | merging leaves the full content and the finished flag alone; a null delta, or one whose content is null or empty, changes nothing; otherwise the content text becomes the old text followed by the delta's |
| PipelineMessages.AiMessage.constructor | src/main/java/me/maydeng/llmkit/core/message/AiMessage.java:9-10 | a new message has null content, null full content and is not finished |
| PipelineMessages.AiMessage.WithContent | src/main/java/me/maydeng/llmkit/core/message/AiMessage.java:12-14 | a message made with some content holds it, with null full content, not finished |
| PipelineMessages.AiMessage.SetContent | src/main/java/me/maydeng/llmkit/core/message/Message.java:17-19 | writes the content field only |
| PipelineMessages.AiMessage.SetFullContent | src/main/java/me/maydeng/llmkit/core/message/AiMessage.java:20-22 | writes the full-content field only |
| PipelineMessages.AiMessage.SetFinished | src/main/java/me/maydeng/llmkit/core/message/AiMessage.java:28-30 | writes the finished flag only |
| PipelineMessages.AiMessage.Merge | src/main/java/me/maydeng/llmkit/core/message/AiMessage.java:32-37 | the new state of the message is the merge of its old state with the delta's content (none when the delta is null) |
| PipelineContext.StreamContext.constructor | src/main/java/me/maydeng/llmkit/core/model/client/StreamContext.java:14-18 | a new context keeps the model, chat context and client it was given, and has no message and no throwable, so it is not in error |
| PipelineContext.StreamContext.SetAiMessage | src/main/java/me/maydeng/llmkit/core/model/client/StreamContext.java:36-38 | writes the message reference only |
| PipelineContext.StreamContext.SetThrowable | src/main/java/me/maydeng/llmkit/core/model/client/StreamContext.java:44-50 | writes the throwable; the context is in error afterwards iff the throwable is non-null |
| PipelineResponse.NewResponse | src/main/java/me/maydeng/llmkit/core/model/chat/response/AiMessageResponse.java:11-15 | a plain response carries its context, raw text and message and is not an error |
| PipelineResponse.ErrorResponse | src/main/java/me/maydeng/llmkit/core/model/chat/response/AiMessageResponse.java:17-22 | an error response is flagged as an error, carries the error message and no AI message |
| PipelineResponse.FactoriesWellFormed | src/main/java/me/maydeng/llmkit/core/model/chat/response/AiMessageResponse.java:11-22 | both factories give responses in which an error never carries a message, and the plain one keeps the message it was given |
| PipelinePrompt.SimplePrompt.constructor | src/main/java/me/maydeng/llmkit/core/prompt/SimplePrompt.java:16-18 | a new prompt holds only a user message, whose content is null |
| PipelinePrompt.SimplePrompt.WithContent | src/main/java/me/maydeng/llmkit/core/prompt/SimplePrompt.java:20-22 | a prompt made from some text holds only a user message with that text |
| PipelinePrompt.SimplePrompt.SetSystemMessage | src/main/java/me/maydeng/llmkit/core/prompt/SimplePrompt.java:28-30 | replaces the system slot only |
| PipelinePrompt.SimplePrompt.SetUserMessage | src/main/java/me/maydeng/llmkit/core/prompt/SimplePrompt.java:36-38 | replaces the user slot only |
| PipelinePrompt.SimplePrompt.SetAiMessage | src/main/java/me/maydeng/llmkit/core/prompt/SimplePrompt.java:44-46 | replaces the assistant slot only |
| PipelinePrompt.SimplePrompt.Messages | src/main/java/me/maydeng/llmkit/core/prompt/SimplePrompt.java:48-61 | the list has one entry per non-null slot, ordered system, user, assistant, and a message is in it iff it is the content of the slot of its kind |
| PipelineParser.OpenAIParser | src/main/java/me/maydeng/llmkit/core/parser/impl/DefaultAiMessageParser.java:13-18 | the OpenAI parser has both paths set |
| PipelineParser.Parse | src/main/java/me/maydeng/llmkit/core/parser/impl/DefaultAiMessageParser.java:37-49 | the parsed message is always fresh (no full content, not finished); with the selected path unset its content is null; otherwise it throws a ClassCastException exactly when the path finds a value that is neither null nor a string, and its content is the string found, or null when the path finds nothing or a null |
| PipelineParser.OpenAIParserReadsFirstChoice | src/main/java/me/maydeng/llmkit/core/parser/impl/DefaultAiMessageParser.java:13-18 | with the OpenAI paths, any body, whatever other members it holds, parses to the string at choices[0].delta.content when streaming and at choices[0].message.content otherwise; a missing or null member on the way gives null content, and any other value throws |
| PipelineParser.ModeSelectsPath | src/main/java/me/maydeng/llmkit/core/parser/impl/DefaultAiMessageParser.java:39-47 | streaming consults only the delta path and non-streaming only the content path: changing the other path never changes the result |
| PipelineParser.OpenAIParserPaths | src/main/java/me/maydeng/llmkit/core/parser/impl/DefaultAiMessageParser.java:13-18 | with the OpenAI paths, a streamed chunk yields its delta text only when streaming and a completion body yields its message text only when not streaming |
| PipelineParser.MissingChoicesGivesNull | src/main/java/me/maydeng/llmkit/core/parser/impl/DefaultAiMessageParser.java:37-49 | a body without "choices" parses to a message with null content in either mode |
| PipelineParser.ParseMessage | src/main/java/me/maydeng/llmkit/core/parser/impl/DefaultAiMessageParser.java:37-49 | returns a new message object whose state is what the parse function gives, or the parse function's failure |
| PipelineRequest.Maps.constructor | src/main/java/me/maydeng/llmkit/core/util/Maps.java:7 | a new map is empty |
| PipelineRequest.Maps.Of | src/main/java/me/maydeng/llmkit/core/util/Maps.java:9-13 | a new map holding exactly the one entry |
| PipelineRequest.Maps.Set | src/main/java/me/maydeng/llmkit/core/util/Maps.java:15-18 | puts or overwrites the key and keeps every other entry |
| PipelineRequest.Maps.SetIf | src/main/java/me/maydeng/llmkit/core/util/Maps.java:20-25 | puts the entry iff the condition holds, otherwise the map is unchanged |
| PipelineRequest.Maps.SetIfNotNull | src/main/java/me/maydeng/llmkit/core/util/Maps.java:27-32 | puts the entry iff the value is non-null, otherwise the map is unchanged |
| PipelineRequest.Maps.SetIfNotEmpty | src/main/java/me/maydeng/llmkit/core/util/Maps.java:34-43 | puts the entry iff the value is neither null nor an empty string, otherwise the map is unchanged |
| PipelineRequest.Maps.PutAll | src/main/java/me/maydeng/llmkit/core/util/Maps.java:15-18 | the map afterwards is the old one overridden by every given entry |
| PipelineRequest.Role | src/main/java/me/maydeng/llmkit/core/model/client/OpenAIChatMessageSerializer.java:25-34 | user, system and assistant messages have the wire roles "user", "system" and "assistant"; any other message kind has none |
| PipelineRequest.Entry | src/main/java/me/maydeng/llmkit/core/model/client/OpenAIChatMessageSerializer.java:24-35 | a known message kind serializes to exactly the keys role and content, holding its role and its content (null kept as null); an unknown kind to an empty map |
| PipelineRequest.Serialized | src/main/java/me/maydeng/llmkit/core/model/client/OpenAIChatMessageSerializer.java:17-38 | null exactly for a null or empty list; otherwise one entry per message, in the same order |
| PipelineRequest.SerializeMessages | src/main/java/me/maydeng/llmkit/core/model/client/OpenAIChatMessageSerializer.java:17-38 | the loop builds exactly the serialized list |
| PipelineRequest.ListValue | src/main/java/me/maydeng/llmkit/core/model/client/OpenAIChatRequestSpecBuilder.java:57 | a null list is stored as JSON null, any other as an array of the same objects in order |
| PipelineRequest.HeaderKeys | src/main/java/me/maydeng/llmkit/core/model/client/OpenAIChatRequestSpecBuilder.java:53-56 | "model" is always put with the model or the configured default; "stream" is present iff streaming, "temperature" and "max_tokens" iff set, with their values; no other key is put first |
| PipelineRequest.NamedBodyKeys | src/main/java/me/maydeng/llmkit/core/model/client/OpenAIChatRequestSpecBuilder.java:57-61 | "messages" always holds the serialized list; "stream_options" is present iff streaming and include-usage is not explicitly false; the first four keys are unchanged |
| PipelineRequest.BodyNamedKeys | src/main/java/me/maydeng/llmkit/core/model/client/OpenAIChatRequestSpecBuilder.java:49-68 | each of the six named keys that no extra entry overrides is present exactly when `buildRequest` puts it, and holds what it puts |
| PipelineRequest.BodyHasNoOtherKeys | src/main/java/me/maydeng/llmkit/core/model/client/OpenAIChatRequestSpecBuilder.java:49-68 | a key that is neither one of the six named keys nor an extra key is absent from the body |
| PipelineRequest.ExtrasOverride | src/main/java/me/maydeng/llmkit/core/model/client/OpenAIChatRequestSpecBuilder.java:63-65 | every extra entry is in the body with its own value, overriding any named key |
| PipelineRequest.BlankModelUsesConfigModel | src/main/java/me/maydeng/llmkit/core/model/client/OpenAIChatRequestSpecBuilder.java:53 | an option model without text sends the configured model |
| PipelineRequest.EmptyPromptSetsNullMessages | src/main/java/me/maydeng/llmkit/core/model/client/OpenAIChatMessageSerializer.java:18-20 | an empty message list still sets "messages" in the body map, to null (the JSON text then leaves the key out, since `toJSONString` drops null values) |
| PipelineRequest.StartBody | src/main/java/me/maydeng/llmkit/core/model/client/OpenAIChatRequestSpecBuilder.java:53-56 | the first four puts on a new map give exactly the header keys |
| PipelineRequest.BuildRequestBody | src/main/java/me/maydeng/llmkit/core/model/client/OpenAIChatRequestSpecBuilder.java:49-68 | the map built step by step is exactly the body specification for the prompt's messages, the options and the configured model |
| PipelineRequest.Headers | src/main/java/me/maydeng/llmkit/core/model/client/OpenAIChatRequestSpecBuilder.java:42-47 | exactly two headers: JSON content type, and "Bearer " followed by the API key ("null" when absent) |
| PipelineRequest.ResolveRetryCases | src/main/java/me/maydeng/llmkit/core/model/client/OpenAIChatRequestSpecBuilder.java:31-35 | with retry disabled (by option, or by configuration when the option is null) count and delay are 0; otherwise each is the option value when set, else the configured one |
| PipelineRequest.BuildRequest | src/main/java/me/maydeng/llmkit/core/model/client/OpenAIChatRequestSpecBuilder.java:26-36 | the request has the full URL, the two headers, the body and the resolved retry count and delay |
| PipelineRetry.RetryFrom | src/main/java/me/maydeng/llmkit/core/util/Retryer.java:10-23 | from call k on: at most the budget of max(retryCount, 0) + 1 calls in all; every call before the last one made failed; a success is the last call's value; a failure comes only once the budget is spent, wrapping the last call's exception |
| PipelineRetry.InterruptedAfter | src/main/java/me/maydeng/llmkit/core/util/Retryer.java:36-40 | the interrupt flag after n sleeps is set iff it was set before or one of those sleeps was interrupted |
| PipelineRetry.FirstSuccessReturned | src/main/java/me/maydeng/llmkit/core/util/Retryer.java:12-14 | when call n is the first success within the budget, it is returned and exactly n + 1 calls are made |
| PipelineRetry.AllFailuresExhaustBudget | src/main/java/me/maydeng/llmkit/core/util/Retryer.java:15-19 | when every call fails, exactly max(retryCount, 0) + 1 calls are made and the last exception is thrown wrapped in a RuntimeException |
| PipelineRetry.SleepQuietly | src/main/java/me/maydeng/llmkit/core/util/Retryer.java:32-41 | sleeps iff the delay is positive; an interrupt during the sleep only sets the interrupt flag again |
| PipelineRetry.Retry | src/main/java/me/maydeng/llmkit/core/util/Retryer.java:10-23 | the loop does what the retry specification says: at least one and at most budget calls, and a sleep after every failure but the last when the delay is positive |
| PipelineRetry.RetryRunnable | src/main/java/me/maydeng/llmkit/core/util/Retryer.java:25-30 | the runnable form runs the same loop; when it throws, the whole budget was used and the last exception is wrapped |
| PipelineStream.ExtendFinalsShaped | src/main/java/me/maydeng/llmkit/core/model/client/BaseStreamClientListener.java:66-74 | appending a notification keeps "every final message has null content and comes before any stop" when the new one respects it |
| PipelineStream.ExtendDeltasBeforeFinal | src/main/java/me/maydeng/llmkit/core/model/client/BaseStreamClientListener.java:53-59 | appending a notification keeps "no delta after the final message" when the new one respects it |
| PipelineStream.ExtendRunningTotals | src/main/java/me/maydeng/llmkit/core/model/client/BaseStreamClientListener.java:53-59 | appending a notification keeps "each delivered message carries the concatenation so far" when the new one respects it |
| PipelineStream.Extend | src/main/java/me/maydeng/llmkit/core/model/client/BaseStreamClientListener.java:53-85 | appending one notification that respects the three shapes keeps them, and updates the delta text, final count and stop count by that one notification |
| PipelineStream.NotifyLastKeeps | src/main/java/me/maydeng/llmkit/core/model/client/BaseStreamClientListener.java:66-74 | handing over the final message keeps the listener invariant, leaves the listener finished, and does not touch the stopped flag |
| PipelineStream.StopOnceKeeps | src/main/java/me/maydeng/llmkit/core/model/client/BaseStreamClientListener.java:79-84 | the stop block of a finished listener keeps the invariant and leaves it stopped |
| PipelineStream.TerminateKeeps | src/main/java/me/maydeng/llmkit/core/model/client/BaseStreamClientListener.java:76-97 | notify-last-then-stop leaves the listener finished and stopped together, with the invariant kept |
| PipelineStream.FailedKeeps | src/main/java/me/maydeng/llmkit/core/model/client/BaseStreamClientListener.java:99-103 | a failure notification keeps the between-events invariant |
| PipelineStream.OnMessageKeeps | src/main/java/me/maydeng/llmkit/core/model/client/BaseStreamClientListener.java:42-64 | every onMessage outcome (end signal, bad payload, delta, rejected delta) keeps the between-events invariant |
| PipelineStream.TakeDeltaKeeps | src/main/java/me/maydeng/llmkit/core/model/client/BaseStreamClientListener.java:53-63 | merging and handing over a parsed delta on an unfinished listener keeps the invariant |
| PipelineStream.StepKeeps | src/main/java/me/maydeng/llmkit/core/model/client/BaseStreamClientListener.java:37-103 | each of the four transport callbacks keeps the between-events invariant |
| PipelineStream.RunKeeps | src/main/java/me/maydeng/llmkit/core/model/client/BaseStreamClientListener.java:37-103 | the invariant holds after any sequence of transport events |
| PipelineStream.StopAtMostOnce | src/main/java/me/maydeng/llmkit/core/model/client/BaseStreamClientListener.java:79-96 | the user's onStop runs at most once, whatever the transport sends |
| PipelineStream.FinalAtMostOnce | src/main/java/me/maydeng/llmkit/core/model/client/BaseStreamClientListener.java:66-74 | the final message is handed over at most once; it has null content and carries as full content every delta before it, concatenated |
| PipelineStream.FinalBeforeStop | src/main/java/me/maydeng/llmkit/core/model/client/BaseStreamClientListener.java:76-97 | the number of stops equals the number of final messages, and the final message always comes before the stop |
| PipelineStream.NoDeltaAfterFinal | src/main/java/me/maydeng/llmkit/core/model/client/BaseStreamClientListener.java:44-47 | no delta message is handed over after the final one |
| PipelineStream.ContentIsConcatenation | src/main/java/me/maydeng/llmkit/core/model/client/BaseStreamClientListener.java:53-59 | each delta carries as full content the concatenation of all deltas up to and including it, and the aggregate holds the concatenation of all |
| PipelineStream.EndSignalNeverParsed | src/main/java/me/maydeng/llmkit/core/model/client/BaseStreamClientListener.java:44-47 | a blank payload, "[DONE]" in any case and after trimming, or any payload after finishing goes straight to notify-and-stop without parsing |
| PipelineStream.DeltaDeliveredIffNonNull | src/main/java/me/maydeng/llmkit/core/model/client/BaseStreamClientListener.java:53-59 | a parsed delta is always merged; it is handed to the user iff its content is non-null (the empty string included), with the merged text as full content |
| PipelineStream.BadPayloadFailsThenStops | src/main/java/me/maydeng/llmkit/core/model/client/BaseStreamClientListener.java:60-63 | a payload that is not JSON, or whose content is not a string, gives the user's onFailure, then the final message, then onStop, and leaves the context's throwable alone; when the user's onFailure throws, its exception escapes and neither the final message nor onStop follows |
| PipelineStream.RejectedDeltaStopsStream | src/main/java/me/maydeng/llmkit/core/model/client/BaseStreamClientListener.java:56-63 | when the user's onMessage throws on a delta, that failure is reported, then the final message and onStop follow; if the user's onFailure throws as well, the stream is left unstopped and that exception escapes |
| PipelineStream.StopSurvivesThrowingFinal | src/main/java/me/maydeng/llmkit/core/model/client/BaseStreamClientListener.java:76-85 | when the user's onMessage throws on the final message the stop block still runs, publishes the message and calls onStop, and the exception escapes |
| PipelineStream.FailureOnlyRecords | src/main/java/me/maydeng/llmkit/core/model/client/BaseStreamClientListener.java:99-103 | onFailure records the throwable and notifies the user, and neither finishes nor stops the stream, even after it stopped; an exception escapes exactly when the user's onFailure throws |
| PipelineStream.ThrowingStopStillStops | src/main/java/me/maydeng/llmkit/core/model/client/BaseStreamClientListener.java:76-97 | when the user's onStop throws, the listener is still finished and stopped with the message published, the stop is the last notification, and the exception escapes |
| PipelineStream.TextIsNotEndSignal | src/main/java/me/maydeng/llmkit/core/model/client/BaseStreamClientListener.java:44 | a JSON object payload is not an end signal on an unfinished listener |
| PipelineStream.DoneIsEndSignal | src/main/java/me/maydeng/llmkit/core/model/client/BaseStreamClientListener.java:44 | "[DONE]" is always an end signal |
| PipelineStream.ChunkStep | src/main/java/me/maydeng/llmkit/core/model/client/BaseStreamClientListener.java:49-59 | one OpenAI delta chunk merges its text and hands the user a delta carrying the merged text, with nothing else happening |
| PipelineStream.HelloChunks | src/main/java/me/maydeng/llmkit/core/model/client/BaseStreamClientListener.java:37-59 | after the start and the chunks "He" and "llo", the listener holds "Hello" and has handed over two deltas with running totals "He" and "Hello" |
| PipelineStream.HelloEnd | src/main/java/me/maydeng/llmkit/core/model/client/BaseStreamClientListener.java:76-97 | "[DONE]" followed by the transport stop hands over one final "Hello" message and one onStop |
| PipelineStream.HelloStream | src/main/java/me/maydeng/llmkit/core/model/client/BaseStreamClientListener.java:37-97 | the complete stream start, "He", "llo", "[DONE]", stop gives exactly: started, two deltas, the final "Hello", one stop |
| PipelineListener.StreamListener.constructor | src/main/java/me/maydeng/llmkit/core/model/client/BaseStreamClientListener.java:25-35 | a new listener is in the initial state (no notes, neither flag set, empty message) with a fresh context holding the model, chat context and client |
| PipelineListener.StreamListener.Deliver | src/main/java/me/maydeng/llmkit/core/model/client/BaseStreamClientListener.java:58 | the user's onMessage is recorded and throws exactly when the user's listener rejects the response |
| PipelineListener.StreamListener.OnStart | src/main/java/me/maydeng/llmkit/core/model/client/BaseStreamClientListener.java:37-40 | the state moves as onStart specifies: one Started note; it throws exactly when the user's onStart does |
| PipelineListener.StreamListener.NotifyLastMessage | src/main/java/me/maydeng/llmkit/core/model/client/BaseStreamClientListener.java:66-74 | the state moves as notify-last specifies: only on the first call, the content moves to the full content, the message is finished and handed over |
| PipelineListener.StreamListener.StopIfFirst | src/main/java/me/maydeng/llmkit/core/model/client/BaseStreamClientListener.java:79-84 | the state moves as the stop block specifies: only on the first call, the message is published in the context and onStop is called; it throws exactly when that call is made and the user's onStop throws |
| PipelineListener.StreamListener.NotifyLastMessageAndStop | src/main/java/me/maydeng/llmkit/core/model/client/BaseStreamClientListener.java:76-85 | the state moves as notify-last-then-stop specifies, the stop block running even when the notification throws, and an exception from the user's onStop replacing the notification's |
| PipelineListener.StreamListener.OnStop | src/main/java/me/maydeng/llmkit/core/model/client/BaseStreamClientListener.java:87-97 | the state moves as onStop specifies |
| PipelineListener.StreamListener.OnFailure | src/main/java/me/maydeng/llmkit/core/model/client/BaseStreamClientListener.java:99-103 | the state moves as onFailure specifies: the throwable recorded in the context and the user told; it throws exactly when the user's onFailure does |
| PipelineListener.StreamListener.FailThenStop | src/main/java/me/maydeng/llmkit/core/model/client/BaseStreamClientListener.java:60-63 | the state moves as the catch block specifies: the user's onFailure, then this listener's onStop, which is skipped when the user's onFailure throws |
| PipelineListener.StreamListener.OnMessage | src/main/java/me/maydeng/llmkit/core/model/client/BaseStreamClientListener.java:42-64 | the state moves as onMessage specifies, for end signals, malformed payloads, parse failures and deltas |
| PipelineListener.StreamListener.TakeDelta | src/main/java/me/maydeng/llmkit/core/model/client/BaseStreamClientListener.java:53-59 | the state moves as taking a parsed delta specifies: merge, set the delta's full content, hand it over when its content is non-null |
| PipelineListener.StreamListener.Dispatch | src/main/java/me/maydeng/llmkit/core/model/client/BaseStreamClientListener.java:37-103 | one transport event moves the state as that callback specifies |
| PipelineListener.StreamListener.Drive | src/main/java/me/maydeng/llmkit/core/model/client/BaseStreamClientListener.java:37-103 | feeding events in order moves the state as the run of those events specifies |
| PipelineListener.Listen | src/main/java/me/maydeng/llmkit/core/model/client/BaseStreamClientListener.java:25-103 | a listener driven from construction is in the state the specification's run gives, has called onStop and handed over the final message at most once each, and is stopped iff finished |
| PipelineClient.NoRetryCallsOnce | src/main/java/me/maydeng/llmkit/core/model/client/OpenAIChatClient.java:57-60 | with a retry count of at most 0 the post is made once, without sleeping, and what it throws reaches the caller unwrapped |
| PipelineClient.RetryReturnsFirstSuccess | src/main/java/me/maydeng/llmkit/core/model/client/OpenAIChatClient.java:57-59 | with retries, the first successful post among the first retryCount + 1 is what the caller gets, after exactly that many posts |
| PipelineClient.RetryWrapsLastFailure | src/main/java/me/maydeng/llmkit/core/model/client/OpenAIChatClient.java:57-59 | with retries and every post failing, retryCount + 1 posts are made and the last failure comes back wrapped |
| PipelineClient.ResponseOf | src/main/java/me/maydeng/llmkit/core/model/client/OpenAIChatClient.java:68-78 | a parsed body always gives a response for the current context with the body as raw text, and an error response never carries a message |
| PipelineClient.ChatOutcome | src/main/java/me/maydeng/llmkit/core/model/client/OpenAIChatClient.java:52-66 | whatever chat returns is a response for the current context, and an error response never carries a message |
| PipelineClient.TransportFailurePropagates | src/main/java/me/maydeng/llmkit/core/model/client/OpenAIChatClient.java:57-60 | what the post throws (after any retries) is exactly what chat throws |
| PipelineClient.EmptyBodyIsError | src/main/java/me/maydeng/llmkit/core/model/client/OpenAIChatClient.java:62-64 | a body without text gives an "empty response" error response with that body as raw text and no message |
| PipelineClient.ProviderErrorCarriesMessage | src/main/java/me/maydeng/llmkit/core/model/client/OpenAIChatClient.java:69-74 | a body whose error member is a non-empty object gives an error response carrying error.message and the body, and no message |
| PipelineClient.SuccessCarriesParsedMessage | src/main/java/me/maydeng/llmkit/core/model/client/OpenAIChatClient.java:69-77 | a body whose error member is absent, null, empty, or the text "" or "null" gives a plain response carrying the parser's message and the body |
| PipelineClient.ErrorTextParsed | src/main/java/me/maydeng/llmkit/core/model/client/OpenAIChatClient.java:69-74 | an error member that is other text is parsed: a non-empty object gives the error response with its message, and text that does not parse escapes as a JSON exception |
| PipelineClient.StreamStopsOnceAcrossRetries | src/main/java/me/maydeng/llmkit/core/model/client/OpenAIChatClient.java:80-103 | however many times start is retried with the one listener, the user's onStop and the final message each come at most once |
| PipelineClient.StreamWithoutRetryStartsOnce | src/main/java/me/maydeng/llmkit/core/model/client/OpenAIChatClient.java:99-102 | without retries start is called once, and the listener sees exactly the events of that one start |
| PipelineClient.OpenAIChatClient.constructor | src/main/java/me/maydeng/llmkit/core/model/client/OpenAIChatClient.java:22-24 | a new client belongs to its chat model and has no HTTP client and no parser yet |
| PipelineClient.OpenAIChatClient.GetHttpClient | src/main/java/me/maydeng/llmkit/core/model/client/OpenAIChatClient.java:26-31 | the HTTP client is created on the first call and the same instance is returned afterwards |
| PipelineClient.OpenAIChatClient.SetHttpClient | src/main/java/me/maydeng/llmkit/core/model/client/OpenAIChatClient.java:33-35 | writes the HTTP client field only |
| PipelineClient.OpenAIChatClient.GetAiMessageParser | src/main/java/me/maydeng/llmkit/core/model/client/OpenAIChatClient.java:41-46 | the OpenAI parser is installed on the first call unless one was set, and the installed parser is returned from then on |
| PipelineClient.OpenAIChatClient.SetAiMessageParser | src/main/java/me/maydeng/llmkit/core/model/client/OpenAIChatClient.java:48-50 | writes the parser field only |
| PipelineClient.OpenAIChatClient.ParseResponse | src/main/java/me/maydeng/llmkit/core/model/client/OpenAIChatClient.java:68-78 | the result is what the response classification gives with the installed (or default OpenAI) parser; the parser field changes at most from null to the OpenAI parser |
| PipelineClient.OpenAIChatClient.Chat | src/main/java/me/maydeng/llmkit/core/model/client/OpenAIChatClient.java:52-66 | the result is the chat outcome specification: post once or through the retry helper, then an empty-response error or the parsed response; an HTTP client exists afterwards, the same one if there was one |
| PipelineClient.OpenAIChatClient.ChatStream | src/main/java/me/maydeng/llmkit/core/model/client/OpenAIChatClient.java:80-103 | one fresh listener wired to the current context and the installed parser receives the events of every start attempt, and ends in the state the stream specification gives |
| PipelineChain.OnionOrder | src/main/java/me/maydeng/llmkit/core/model/chat/BaseChatModel.java:63-71 | when every interceptor calls next, they are entered in list order, the client is called once, they are left in reverse order, and the answer is mapped by each on the way out, innermost first |
| PipelineChain.TwoInterceptors | src/main/java/me/maydeng/llmkit/core/model/chat/BaseChatModel.java:63-71 | two interceptors A then B run as A-before, B-before, client, B-after, A-after, and the answer is A's mapping of B's mapping of the client's |
| PipelineChain.ClientCalledIff | src/main/java/me/maydeng/llmkit/core/model/chat/BaseChatModel.java:63-71 | the client is called if and only if every interceptor calls next |
| PipelineChain.ShortCircuit | src/main/java/me/maydeng/llmkit/core/model/chat/BaseChatModel.java:63-71 | the first interceptor that does not call next decides the answer (its own answer mapped by those before it) and the trace stops at it |
| PipelineChain.TerminalIgnoredWhenCut | src/main/java/me/maydeng/llmkit/core/model/chat/BaseChatModel.java:63-71 | when some interceptor does not call next, the run is the same whatever the client would have answered |
| PipelineChain.StreamPassesListener | src/main/java/me/maydeng/llmkit/core/model/chat/BaseChatModel.java:73-81 | interceptors that call next with the listener unchanged hand the caller's listener to the client's chatStream, in the onion order, and when the client returns normally nothing is thrown |
| PipelineChain.EscapeSkipsExits | src/main/java/me/maydeng/llmkit/core/model/chat/BaseChatModel.java:73-81 | the client's exception does not change which listener the client is handed; it escapes the chain exactly when the client is reached, and then every interceptor has been entered and none has reached its exit |
| PipelineChain.StreamShapeMatchesSync | src/main/java/me/maydeng/llmkit/core/model/chat/BaseChatModel.java:63-81 | the stream chain's trace equals the sync chain's when each interceptor makes the same call decision, and the client is reached exactly when all call next |
| PipelineChain.ChatContextHolder.constructor | src/main/java/me/maydeng/llmkit/core/model/chat/ChatContextHolder.java:7 | the thread's slot starts empty |
| PipelineChain.ChatContextHolder.BeginChat | src/main/java/me/maydeng/llmkit/core/model/chat/ChatContextHolder.java:12-20 | the slot holds the new context |
| PipelineChain.ChatContextHolder.Clear | src/main/java/me/maydeng/llmkit/core/model/chat/ChatContextHolder.java:26-28 | the slot is empty again |
| PipelineChain.Lift | src/main/java/me/maydeng/llmkit/core/model/chat/BaseChatModel.java:65 | a client answer passes into the chain unchanged, as a non-null response or the same exception |
| PipelineChain.Effective | src/main/java/me/maydeng/llmkit/core/model/chat/BaseChatModel.java:33-36 | the options a call runs with are the caller's, or fresh defaults for null, with only streaming changed |
| PipelineChain.BaseChatModel.constructor | src/main/java/me/maydeng/llmkit/core/model/chat/BaseChatModel.java:23-29 | the interceptor list is a copy of the user's list, or empty for null |
| PipelineChain.BaseChatModel.AddInterceptor | src/main/java/me/maydeng/llmkit/core/model/chat/BaseChatModel.java:91-95 | a non-null interceptor is appended after all existing ones; null leaves the list unchanged |
| PipelineChain.BaseChatModel.Chat | src/main/java/me/maydeng/llmkit/core/model/chat/BaseChatModel.java:31-45 | the caller's options get streaming off; the result is the sync chain over the interceptors around the client's chat of the request built from the prompt and those options; the thread's context is cleared afterwards |
| PipelineChain.BaseChatModel.ChatStream | src/main/java/me/maydeng/llmkit/core/model/chat/BaseChatModel.java:47-61 | the caller's options get streaming on; the chain runs, and when it reaches the client the client's stream runs with the listener it was handed and ends as the stream specification says; a start that still fails is thrown through the chain and out of the method, and nothing is thrown otherwise; the context is cleared afterwards |
| PipelineChain.BaseChatModel.ChatStreamDeltas | src/main/java/me/maydeng/llmkit/core/model/chat/ChatModel.java:37-50 | a null callback throws "onDelta must not be null" before anything runs; otherwise the stream chain runs with the adapter listener, and the exception of a start that still fails is thrown |
| PipelineChain.BaseChatModel.ChatText | src/main/java/me/maydeng/llmkit/core/model/chat/ChatModel.java:15-21 | the text is sent as one user message and the chain's answer is read as text as the text reading says |
| PipelineChain.TextOfResponses | src/main/java/me/maydeng/llmkit/core/model/chat/ChatModel.java:17-20 | an error response throws a runtime exception with its error message; a plain response yields its message's content, or null without a message |
| PipelineChain.ForwardedIsDeltas | src/main/java/me/maydeng/llmkit/core/model/chat/ChatModel.java:41-49 | the adapter forwards exactly the non-null content of each delta message, one string per delta and in order; concatenated, that is the delta text the listener delivered; the final aggregate message is never forwarded |
| PipelineChain.AdapterForwardsDeltas | src/main/java/me/maydeng/llmkit/core/model/chat/ChatModel.java:41-49 | over a whole stream the adapter forwards the list of delta contents, in order and nothing else, and their concatenation is the streamed text |
| PipelineChain.DeltaAdapter | src/main/java/me/maydeng/llmkit/core/model/chat/ChatModel.java:41-49 | the adapter listener keeps the identity it is given; its onMessage throws on a delta exactly when the callback throws on its content, and its onStart, onFailure and onStop never throw |
| PipelineChain.AdaptDelta | src/main/java/me/maydeng/llmkit/core/model/chat/ChatModel.java:37-40 | a null callback is refused with IllegalArgumentException "onDelta must not be null", and a non-null one is wrapped in the adapter |
| FlatRetry.FinalFailure | src/main/java/io/github/llmkit/util/Retryer.java:48-51 | the thrown exception is the last one when that is an LLMKitException, else an LLMKitException "Operation failed after N retries" whose cause is the last exception; it is always an LLMKitException |
| FlatRetry.RetryFrom | src/main/java/io/github/llmkit/util/Retryer.java:33-46 | from call k on: at most retryCount + 1 calls in all; every call before the last one made failed; a success is the last call's value; a failure comes only after call retryCount failed, and is the final exception for it |
| FlatRetry.FirstSuccessReturned | src/main/java/io/github/llmkit/util/Retryer.java:33-35 | with retryCount at least n and call n the first success, it is returned and exactly n + 1 calls are made |
| FlatRetry.AllFailuresMakeCountPlusOneCalls | src/main/java/io/github/llmkit/util/Retryer.java:29-51 | with retryCount at least 0 and every call failing, exactly retryCount + 1 calls are made; a framework exception from the last is rethrown unchanged, any other is wrapped with the count in the message |
| FlatRetry.NegativeCountNeverCalls | src/main/java/io/github/llmkit/util/Retryer.java:30-51 | a negative count makes no call and no sleep and throws an LLMKitException with a null cause |
| FlatRetry.Retry | src/main/java/io/github/llmkit/util/Retryer.java:29-52 | the loop does what the retry specification says: no call for a negative count, at most retryCount + 1 calls otherwise, and a sleep after every failure but the last when the delay is positive |
| FlatRetry.RetryRunnable | src/main/java/io/github/llmkit/util/Retryer.java:62-67 | the runnable form runs the same loop, and whatever it throws is an LLMKitException |
| FlatErrors.ChatExceptionIsKit | src/main/java/io/github/llmkit/exception/ChatException.java:12 | every chat exception, provider exceptions included, is a framework exception |
| FlatErrors.NewProvider | src/main/java/io/github/llmkit/exception/ProviderException.java:40-46 | the five-argument constructor gives a provider exception (a chat and framework exception) holding exactly the message, code, type, status and raw response given |
| FlatErrors.NewProvider4 | src/main/java/io/github/llmkit/exception/ProviderException.java:26-29 | the four-argument constructor is the five-argument one with a null status |
| FlatErrors.RateLimitIgnoresCode | src/main/java/io/github/llmkit/exception/ProviderException.java:80-83 | the rate-limit test looks at the type and the status only: status 429 always makes one, the error code alone never does |
| FlatErrors.AuthenticationSignals | src/main/java/io/github/llmkit/exception/ProviderException.java:90-94 | the code "invalid_api_key", the type "authentication_error" and status 401 each make an authentication error, and without a status nothing else does |
| FlatErrors.MissingField | src/main/java/io/github/llmkit/exception/ConfigurationException.java:39-41 | a configuration exception (a framework exception, not a chat exception) whose message names the missing field |
| FlatErrors.InvalidJson | src/main/java/io/github/llmkit/exception/ParseException.java:63-65 | a parse exception (not a chat exception) with message "Failed to parse JSON response", the raw content and the cause |
| FlatStrings.DefaultIfNoText | src/main/java/io/github/llmkit/util/StringUtil.java:42-44 | the string itself when it has text, the default when it is null or blank |
| FlatStrings.Truncate | src/main/java/io/github/llmkit/util/StringUtil.java:53-58 | null and strings of at most max chars come back unchanged; a longer one becomes its first max chars followed by "...", max + 3 chars in all |
| FlatMessages.LookupFrom | src/main/java/io/github/llmkit/message/MessageType.java:62-66 | a type is found exactly when some type's value from that index on equals the text ignoring case, and the one found matches |
| FlatMessages.FromValue | src/main/java/io/github/llmkit/message/MessageType.java:58-68 | null throws "Message type value cannot be null", an unknown value throws "Unknown message type: " plus the value, and otherwise the type returned has a value equal to the text ignoring case |
| FlatMessages.ValuesDistinctIgnoringCase | src/main/java/io/github/llmkit/message/MessageType.java:14-34 | two types' values are equal ignoring case only when the types are the same |
| FlatMessages.FromValueRoundTrip | src/main/java/io/github/llmkit/message/MessageType.java:47-68 | parsing any type's value gives that type back |
| FlatMessages.FromValueIgnoresCase | src/main/java/io/github/llmkit/message/MessageType.java:63 | "USER" parses as the user type |
| FlatMessages.UnknownValueRejected | src/main/java/io/github/llmkit/message/MessageType.java:67 | "bot" is rejected with "Unknown message type: bot" |
| FlatMessages.TypeOf | src/main/java/io/github/llmkit/message/SystemMessage.java:39-40 | a message's type is system, user or assistant, one per subclass |
| FlatMessages.Role | src/main/java/io/github/llmkit/message/Message.java:48-50 | the role is the wire value of the type, "user", "system" or "assistant" exactly for the matching subclass |
| FlatMessages.MessageEqualsIsValueEquality | src/main/java/io/github/llmkit/message/Message.java:52-59 | two messages are equal exactly when content and type agree, so one text under two roles gives two different messages |
| FlatMessages.LongContentTruncated | src/main/java/io/github/llmkit/message/Message.java:66-73 | a content longer than 50 chars shows in toString as its first 50 chars followed by "..." |
| FlatMessages.MessageHash | src/main/java/io/github/llmkit/message/Message.java:61-64 | the hash code is a 32-bit int computed from the content and the type only |
| FlatMessages.EqualMessagesHashAlike | src/main/java/io/github/llmkit/message/Message.java:52-64 | equal messages have equal hash codes |
| FlatOptions.Options.ModelOrDefault | src/main/java/io/github/llmkit/api/ChatOptions.java:146-148 | the model unless it is null or empty, otherwise the default |
| FlatOptions.Options.TemperatureOrDefault | src/main/java/io/github/llmkit/api/ChatOptions.java:165-167 | the temperature when set, otherwise the default |
| FlatOptions.Options.IncludeUsageOrDefault | src/main/java/io/github/llmkit/api/ChatOptions.java:220-222 | the usage flag when set, otherwise the default |
| FlatOptions.Options.RetryEnabledOrDefault | src/main/java/io/github/llmkit/api/ChatOptions.java:248-250 | the retry flag when set, otherwise the default |
| FlatOptions.Options.RetryCountOrDefault | src/main/java/io/github/llmkit/api/ChatOptions.java:267-269 | the retry count when set, otherwise the default |
| FlatOptions.Options.RetryDelayMsOrDefault | src/main/java/io/github/llmkit/api/ChatOptions.java:286-288 | the retry delay when set, otherwise the default |
| FlatOptions.BlankModelKept | src/main/java/io/github/llmkit/api/ChatOptions.java:146-148 | a model of one space is kept rather than replaced by the default (only null and "" give the default) |
| FlatOptions.BuildOptions | src/main/java/io/github/llmkit/api/ChatOptions.java:52-66 | building copies every field, and a null extra map becomes the empty map |
| FlatOptions.DefaultValues | src/main/java/io/github/llmkit/api/ChatOptions.java:38 | the default options have temperature 0.5, every other scalar null and an empty extra map |
| FlatOptions.ToBuilderRoundTrip | src/main/java/io/github/llmkit/api/ChatOptions.java:82-95 | toBuilder followed by build gives options equal to the original |
| FlatOptions.WithChangesOneField | src/main/java/io/github/llmkit/api/ChatOptions.java:105-127 | withModel, withTemperature and withMaxTokens each give a copy that differs from the original in that one field only |
| FlatOptions.OptionsEqualsIsValueEquality | src/main/java/io/github/llmkit/api/ChatOptions.java:290-306 | two options are equal exactly when all eleven fields agree |
| FlatOptions.OptionsBuilder.constructor | src/main/java/io/github/llmkit/api/ChatOptions.java:335-348 | a new builder has temperature 0.5 and every other field null |
| FlatOptions.OptionsBuilder.Model | src/main/java/io/github/llmkit/api/ChatOptions.java:356-359 | sets the model only and returns the same builder |
| FlatOptions.OptionsBuilder.Temperature | src/main/java/io/github/llmkit/api/ChatOptions.java:367-370 | sets the temperature only and returns the same builder |
| FlatOptions.OptionsBuilder.MaxTokens | src/main/java/io/github/llmkit/api/ChatOptions.java:378-381 | sets the token limit only and returns the same builder |
| FlatOptions.OptionsBuilder.TopP | src/main/java/io/github/llmkit/api/ChatOptions.java:389-392 | sets top-p only and returns the same builder |
| FlatOptions.OptionsBuilder.FrequencyPenalty | src/main/java/io/github/llmkit/api/ChatOptions.java:400-403 | sets the frequency penalty only and returns the same builder |
| FlatOptions.OptionsBuilder.PresencePenalty | src/main/java/io/github/llmkit/api/ChatOptions.java:411-414 | sets the presence penalty only and returns the same builder |
| FlatOptions.OptionsBuilder.IncludeUsage | src/main/java/io/github/llmkit/api/ChatOptions.java:422-425 | sets the usage flag only and returns the same builder |
| FlatOptions.OptionsBuilder.Extra | src/main/java/io/github/llmkit/api/ChatOptions.java:433-436 | replaces the extra map only and returns the same builder |
| FlatOptions.OptionsBuilder.AddExtra | src/main/java/io/github/llmkit/api/ChatOptions.java:445-451 | creates the extra map when it is null, then inserts or overwrites the one key; nothing else changes |
| FlatOptions.OptionsBuilder.RetryEnabled | src/main/java/io/github/llmkit/api/ChatOptions.java:459-462 | sets the retry flag only and returns the same builder |
| FlatOptions.OptionsBuilder.RetryCount | src/main/java/io/github/llmkit/api/ChatOptions.java:470-473 | sets the retry count only and returns the same builder |
| FlatOptions.OptionsBuilder.RetryDelayMs | src/main/java/io/github/llmkit/api/ChatOptions.java:481-484 | sets the retry delay only and returns the same builder |
| FlatOptions.ToBuilder | src/main/java/io/github/llmkit/api/ChatOptions.java:82-95 | a fresh builder holding every field of the options, an empty extra map passed on as null |
| FlatOptions.ExtraCopiedAtBuild | src/main/java/io/github/llmkit/api/ChatOptions.java:60-62 | built options keep the extra map as it was at build time; an entry added to the builder later reaches only options built later |
| FlatConfig.ConfigBuilder.constructor | src/main/java/io/github/llmkit/core/config/AbstractChatConfigBuilder.java:24-26 | the builder wraps the configuration object it is given |
| FlatConfig.ConfigBuilder.ApiKey | src/main/java/io/github/llmkit/core/config/AbstractChatConfigBuilder.java:39-42 | sets the wrapped configuration's API key and returns the same builder |
| FlatConfig.ConfigBuilder.Provider | src/main/java/io/github/llmkit/core/config/AbstractChatConfigBuilder.java:50-53 | sets the provider and returns the same builder |
| FlatConfig.ConfigBuilder.Endpoint | src/main/java/io/github/llmkit/core/config/AbstractChatConfigBuilder.java:61-64 | sets the endpoint, normalised as the configuration's setter does, and returns the same builder |
| FlatConfig.ConfigBuilder.RequestPath | src/main/java/io/github/llmkit/core/config/AbstractChatConfigBuilder.java:72-75 | sets the request path, normalised as the configuration's setter does, and returns the same builder |
| FlatConfig.ConfigBuilder.Model | src/main/java/io/github/llmkit/core/config/AbstractChatConfigBuilder.java:83-86 | sets the model, trimmed (null stays null), and returns the same builder |
| FlatConfig.ConfigBuilder.LogEnabled | src/main/java/io/github/llmkit/core/config/AbstractChatConfigBuilder.java:94-97 | sets the log flag and returns the same builder |
| FlatConfig.ConfigBuilder.RetryEnabled | src/main/java/io/github/llmkit/core/config/AbstractChatConfigBuilder.java:105-108 | sets the retry flag and returns the same builder |
| FlatConfig.ConfigBuilder.RetryCount | src/main/java/io/github/llmkit/core/config/AbstractChatConfigBuilder.java:116-119 | sets the retry count and returns the same builder |
| FlatConfig.ConfigBuilder.RetryDelayMs | src/main/java/io/github/llmkit/core/config/AbstractChatConfigBuilder.java:127-130 | writes the configuration's initial retry delay and returns the same builder |
| FlatConfig.ConfigBuilder.CustomProperty | src/main/java/io/github/llmkit/core/config/AbstractChatConfigBuilder.java:139-142 | adds or overwrites one entry of the custom properties, creating the map when it is null |
| FlatConfig.ConfigBuilder.CustomProperties | src/main/java/io/github/llmkit/core/config/AbstractChatConfigBuilder.java:150-153 | replaces the custom properties map |
| FlatConfig.ConfigBuilder.Validate | src/main/java/io/github/llmkit/core/config/AbstractChatConfigBuilder.java:160-164 | throws the missing-field configuration exception for "apiKey" exactly when the API key is null or blank |
| FlatConfig.ConfigBuilder.Build | src/main/java/io/github/llmkit/core/config/AbstractChatConfigBuilder.java:172-175 | fails exactly when validation fails, and otherwise returns the very configuration object the builder wraps |
| FlatConfig.CustomPropertiesAccumulate | src/main/java/io/github/llmkit/core/config/AbstractChatConfigBuilder.java:139-142 | three customProperty calls leave both keys, the later value winning on the shared key |
| FlatConfig.BuildChecksApiKey | src/main/java/io/github/llmkit/core/config/AbstractChatConfigBuilder.java:160-175 | a key of spaces is refused with a configuration exception, and a real key gives back the wrapped object |
| FlatPrompts.AddMessagesIsRepeatedAdd | src/main/java/io/github/llmkit/prompt/ChatPrompt.java:113-135 | adding a list of messages at once gives the same prompt as adding them one by one in order |
| FlatPrompts.AddKeepsOriginal | src/main/java/io/github/llmkit/prompt/ChatPrompt.java:89-135 | each add gives a new prompt with the old messages followed by exactly the one new message, and a null message or a null or empty list gives the prompt back unchanged |
| FlatPrompts.SystemMessageOf | src/main/java/io/github/llmkit/prompt/ChatPrompt.java:155-160 | a system message is returned exactly when the first message is one, and it is that first message |
| FlatPrompts.LastMessage | src/main/java/io/github/llmkit/prompt/ChatPrompt.java:167-169 | null exactly for the empty prompt, otherwise the last message |
| FlatPrompts.LastUserIndex | src/main/java/io/github/llmkit/prompt/ChatPrompt.java:176-183 | no index exactly when there is no user message; otherwise the index of a user message after which there is none |
| FlatPrompts.GetLastUserMessage | src/main/java/io/github/llmkit/prompt/ChatPrompt.java:176-183 | the backward loop returns the last user message, or null when there is none |
| FlatPrompts.FormatMessages | src/main/java/io/github/llmkit/prompt/ChatPrompt.java:193-212 | the loop builds the formatted list: "[]" when empty, otherwise at most three entries separated by ", " and then how many more there are |
| FlatPrompts.FormattedParts | src/main/java/io/github/llmkit/prompt/ChatPrompt.java:193-212 | a non-empty list formats as "[" + the first three entries + the rest count + "]" |
| FlatPrompts.FormattedShowsFirstThree | src/main/java/io/github/llmkit/prompt/ChatPrompt.java:198-209 | two lists of the same length that agree on their first three messages format alike |
| FlatPrompts.FormattedCountsRest | src/main/java/io/github/llmkit/prompt/ChatPrompt.java:207-209 | with more than three messages the text ends with ", ... " + the number left out + " more]" |
| FlatPrompts.SimpleMessages | src/main/java/io/github/llmkit/prompt/SimplePrompt.java:41-57 | the list holds each present slot exactly once, system before user before assistant, and nothing else |
| FlatPrompts.SimpleFactories | src/main/java/io/github/llmkit/prompt/SimplePrompt.java:65-82 | user(c) holds one user message; of(s, u) holds a system then a user message even when a content is null |
| FlatPrompts.SlotTextTruncates | src/main/java/io/github/llmkit/prompt/SimplePrompt.java:134-146 | a slot whose content is longer than 30 chars shows its first 30 chars and "..." in quotes; a shorter one shows whole |
| FlatPrompts.SimplePromptBuilder.constructor | src/main/java/io/github/llmkit/prompt/SimplePrompt.java:152-157 | a new builder has all three slots empty |
| FlatPrompts.SimplePromptBuilder.System | src/main/java/io/github/llmkit/prompt/SimplePrompt.java:165-168 | sets the system slot, a null content emptying it, and returns the same builder |
| FlatPrompts.SimplePromptBuilder.User | src/main/java/io/github/llmkit/prompt/SimplePrompt.java:176-179 | sets the user slot, a null content emptying it, and returns the same builder |
| FlatPrompts.SimplePromptBuilder.Assistant | src/main/java/io/github/llmkit/prompt/SimplePrompt.java:187-190 | sets the assistant slot, a null content emptying it, and returns the same builder |
| FlatPrompts.IsEmpty | src/main/java/io/github/llmkit/prompt/Prompt.java:53-64 | a prompt is empty exactly when its size is 0 |
| FlatPrompts.PromptFactories | src/main/java/io/github/llmkit/prompt/Prompt.java:74-107 | of(text) holds one user message; of(system, user) a system then a user message; of(null list) is empty; of(list) holds the list; toChatPrompt keeps the same messages |
| FlatPrompts.ChatPromptBuilder.constructor | src/main/java/io/github/llmkit/prompt/ChatPromptBuilder.java:37-43 | a new builder holds no messages |
| FlatPrompts.ChatPromptBuilder.System | src/main/java/io/github/llmkit/prompt/ChatPromptBuilder.java:51-56 | appends a system message unless the content is null, and returns the same builder |
| FlatPrompts.ChatPromptBuilder.User | src/main/java/io/github/llmkit/prompt/ChatPromptBuilder.java:64-69 | appends a user message unless the content is null, and returns the same builder |
| FlatPrompts.ChatPromptBuilder.Assistant | src/main/java/io/github/llmkit/prompt/ChatPromptBuilder.java:77-82 | appends an assistant message unless the content is null, and returns the same builder |
| FlatPrompts.ChatPromptBuilder.Add | src/main/java/io/github/llmkit/prompt/ChatPromptBuilder.java:90-95 | appends the message unless it is null |
| FlatPrompts.ChatPromptBuilder.AddAll | src/main/java/io/github/llmkit/prompt/ChatPromptBuilder.java:103-108 | appends the whole list, a null list adding nothing |
| FlatPrompts.ChatPromptBuilder.From | src/main/java/io/github/llmkit/prompt/ChatPromptBuilder.java:116-121 | appends the prompt's messages, a null prompt adding nothing |
| FlatPrompts.ChatPromptBuilder.Turn | src/main/java/io/github/llmkit/prompt/ChatPromptBuilder.java:130-134 | appends the user message then the assistant message, each skipped when its content is null |
| FlatPrompts.ChatPromptBuilder.IsEmpty | src/main/java/io/github/llmkit/prompt/ChatPromptBuilder.java:150-152 | empty exactly when the size is 0 |
| FlatPrompts.ChatPromptBuilder.Clear | src/main/java/io/github/llmkit/prompt/ChatPromptBuilder.java:159-162 | removes every message and returns the same builder |
| FlatPrompts.ToBuilder | src/main/java/io/github/llmkit/prompt/ChatPrompt.java:142-148 | a fresh builder filled message by message holds the prompt's list, and building it gives the same prompt back |
| FlatPrompts.NewChat | src/main/java/io/github/llmkit/prompt/Prompt.java:114-116 | a fresh, empty builder |
| FlatPrompts.NewChatWithSystem | src/main/java/io/github/llmkit/prompt/Prompt.java:124-126 | a fresh builder holding the system message, or nothing when the text is null |
| FlatModel.MessageEntry | src/main/java/io/github/llmkit/chat/openai/OpenAIChatModel.java:155-158 | each message entry has exactly the keys "role" and "content": the type's wire value and the content, a null content kept as null |
| FlatModel.MessagesValue | src/main/java/io/github/llmkit/chat/openai/OpenAIChatModel.java:153-160 | the "messages" array has one entry per prompt message, in order |
| FlatModel.RequestBodyBaseKeys | src/main/java/io/github/llmkit/chat/openai/OpenAIChatModel.java:149-160 | "model" (the options' model or the configured one) and "messages" are always in the body unless an extra entry overrides them |
| FlatModel.RequestBodySamplingKeys | src/main/java/io/github/llmkit/chat/openai/OpenAIChatModel.java:163-168 | "temperature" and "max_tokens" are in the body exactly when set, with their values, unless an extra entry overrides them |
| FlatModel.RequestBodyPenaltyKeys | src/main/java/io/github/llmkit/chat/openai/OpenAIChatModel.java:169-177 | "top_p", "frequency_penalty" and "presence_penalty" are in the body exactly when set, with their values, unless an extra entry overrides them |
| FlatModel.StreamKeepsOthers | src/main/java/io/github/llmkit/chat/openai/OpenAIChatModel.java:180-187 | the streaming step touches no key but "stream" and "stream_options" |
| FlatModel.RequestBodyStreamKeys | src/main/java/io/github/llmkit/chat/openai/OpenAIChatModel.java:180-187 | "stream" is true exactly when streaming; "stream_options" is present exactly when streaming with include-usage explicitly true |
| FlatModel.RequestBodyHasNoOtherKeys | src/main/java/io/github/llmkit/chat/openai/OpenAIChatModel.java:145-195 | the body has no key besides the nine named ones and the extras |
| FlatModel.ExtrasOverride | src/main/java/io/github/llmkit/chat/openai/OpenAIChatModel.java:190-192 | every extra entry is in the body with its own value, winning over a named key |
| FlatModel.BlankModelAndUsageDiffer | src/main/java/io/github/llmkit/chat/openai/OpenAIChatModel.java:149-150 | a model of one space is sent as it is, and a streaming request without an explicit include-usage carries no "stream_options" |
| FlatModel.BuildMessages | src/main/java/io/github/llmkit/chat/openai/OpenAIChatModel.java:153-160 | the loop builds exactly the "messages" array described above |
| FlatModel.PutIfPresent | src/main/java/io/github/llmkit/chat/openai/OpenAIChatModel.java:163-177 | one guarded put: the key is set only when the value is present |
| FlatModel.PutSampling | src/main/java/io/github/llmkit/chat/openai/OpenAIChatModel.java:163-177 | the five guarded puts of the sampling parameters |
| FlatModel.PutStream | src/main/java/io/github/llmkit/chat/openai/OpenAIChatModel.java:180-187 | the stream flag and, with usage explicitly requested, the stream options |
| FlatModel.PutExtra | src/main/java/io/github/llmkit/chat/openai/OpenAIChatModel.java:190-192 | the extras are put over the body, an empty map changing nothing |
| FlatModel.BuildRequestBody | src/main/java/io/github/llmkit/chat/openai/OpenAIChatModel.java:145-195 | the body built step by step is the request body described by the lemmas above |
| FlatModel.RequestOf | src/main/java/io/github/llmkit/chat/openai/OpenAIChatModel.java:57-59 | a call posts to the configuration's full URL with the bearer-token headers |
| FlatModel.UsageOf | src/main/java/io/github/llmkit/chat/openai/OpenAIChatModel.java:226-234 | each usage count that is an integer is carried over, and one that is missing reads as 0 |
| FlatModel.ErrorTextReadAsObject | src/main/java/io/github/llmkit/chat/openai/OpenAIChatModel.java:206-212 | an "error" string "" or "null" behaves as no error member, text that parses behaves as the parsed object, and text that does not parse is re-wrapped as invalid JSON |
| Json.IntMember | src/main/java/io/github/llmkit/chat/openai/OpenAIChatModel.java:230-232 | an integer member is read as it is; an absent or null member gives the default |
| FlatModel.ParseResponse | src/main/java/io/github/llmkit/chat/openai/OpenAIChatModel.java:197-212 | a provider exception is thrown exactly when the reply parses to an object whose "error" member reads through `getJSONObject` as a non-empty object, and it carries that object's message, code and type as `getString` reads them, the raw reply and no HTTP status |
| FlatModel.ParseResponseShape | src/main/java/io/github/llmkit/chat/openai/OpenAIChatModel.java:197-248 | every failure is a framework exception and the only chat exception among them is the provider error; a success keeps the raw text and carries an assistant message with non-null content, or none |
| FlatModel.EmptyResponseRejected | src/main/java/io/github/llmkit/chat/openai/OpenAIChatModel.java:198-200 | a null or empty response throws "Empty response from API", and that is the only failure without the raw text |
| FlatModel.ProviderErrorVerbatim | src/main/java/io/github/llmkit/chat/openai/OpenAIChatModel.java:206-212 | the usual OpenAI error object, with null "param" and "code", is thrown as a provider exception with its message and type verbatim, a null code and no HTTP status |
| FlatModel.NoChoicesRewrapped | src/main/java/io/github/llmkit/chat/openai/OpenAIChatModel.java:215-218 | missing or empty "choices" throws a parse exception that the generic catch at 245-246 wraps as invalid JSON, so no chat exception reaches the caller |
| FlatModel.MissingContentAndCounts | src/main/java/io/github/llmkit/chat/openai/OpenAIChatModel.java:220-234 | a first choice without a message gives a null message, and a usage object without counts gives zeros |
| FlatModel.ChoiceCarriedOver | src/main/java/io/github/llmkit/chat/openai/OpenAIChatModel.java:220-241 | the first choice's content and finish reason and the usage counts are carried over verbatim |
| FlatModel.WellFormedReply | src/main/java/io/github/llmkit/chat/openai/OpenAIChatModel.java:197-241 | a well-formed reply gives an assistant message with its content, its finish reason and its three counts |
| FlatModel.StreamDeltaCases | src/main/java/io/github/llmkit/chat/openai/OpenAIChatModel.java:250-265 | a chunk with a first-choice delta yields its content; an unparsable chunk or one without choices yields null |
| FlatModel.Accepted | src/main/java/io/github/llmkit/chat/openai/OpenAIChatModel.java:97-105 | a delta is forwarded only when the data is not "[DONE]" and the parsed content is non-empty |
| FlatModel.FoldForwardsDeltas | src/main/java/io/github/llmkit/chat/openai/OpenAIChatModel.java:96-109 | the deltas handed to the callback are the accepted deltas, in arrival order |
| FlatModel.FoldContentIsConcat | src/main/java/io/github/llmkit/chat/openai/OpenAIChatModel.java:102-104 | the content buffer is exactly the concatenation of the forwarded deltas |
| FlatModel.FoldForwardsNonEmpty | src/main/java/io/github/llmkit/chat/openai/OpenAIChatModel.java:102 | no forwarded delta is empty |
| FlatModel.FoldErrorAndClose | src/main/java/io/github/llmkit/chat/openai/OpenAIChatModel.java:111-119 | the error reference holds the last error delivered, and the latch is released exactly when a close was delivered |
| FlatModel.DoneIgnored | src/main/java/io/github/llmkit/chat/openai/OpenAIChatModel.java:97-99 | a "[DONE]" event changes nothing |
| FlatModel.Reach | src/main/java/io/github/llmkit/chat/openai/OpenAIChatModel.java:122-123 | the listener receives at most all the events |
| FlatModel.ReachStopsAtFirstClose | src/main/java/io/github/llmkit/chat/openai/OpenAIChatModel.java:116-123 | stream returns at the first close and no earlier: the delivered events hold one close, at their end, exactly when the events hold a close |
| FlatModel.Rethrown | src/main/java/io/github/llmkit/chat/openai/OpenAIChatModel.java:129-135 | no error means a normal return; a chat exception is rethrown as it is; anything else is wrapped as "Stream failed: " plus its message |
| FlatModel.StreamListener.constructor | src/main/java/io/github/llmkit/chat/openai/OpenAIChatModel.java:89-94 | a new listener has an empty buffer, nothing forwarded, no error and the latch not yet released |
| FlatModel.StreamListener.OnMessage | src/main/java/io/github/llmkit/chat/openai/OpenAIChatModel.java:96-109 | "[DONE]" is ignored, a non-empty delta is appended and forwarded, an unusable chunk is skipped |
| FlatModel.StreamListener.OnError | src/main/java/io/github/llmkit/chat/openai/OpenAIChatModel.java:112-114 | the error reference is overwritten |
| FlatModel.StreamListener.OnClose | src/main/java/io/github/llmkit/chat/openai/OpenAIChatModel.java:117-119 | the latch is released |
| FlatModel.Listen | src/main/java/io/github/llmkit/chat/openai/OpenAIChatModel.java:93-123 | delivering events one by one to a new listener until the first close leaves the state the fold of the delivered events gives |
| FlatModel.StreamReturns | src/main/java/io/github/llmkit/chat/openai/OpenAIChatModel.java:76-136 | a streaming request carries "stream": true; the call returns exactly when a close arrives; the callback gets the accepted non-empty deltas in order; and it throws exactly when an error came before the close |
| FlatModel.NoRetryPostsOnce | src/main/java/io/github/llmkit/chat/openai/OpenAIChatModel.java:61-71 | with retry disabled or a count of 0 or less there is exactly one post, no sleep, and its failure is thrown as it is |
| FlatModel.RetryDisabledMeansZeroCount | src/main/java/io/github/llmkit/chat/openai/OpenAIChatModel.java:61-64 | with retry disabled the count is 0 whatever the options or configuration hold, while the delay still comes from them |
| FlatModel.RetriedCallGivesUp | src/main/java/io/github/llmkit/chat/openai/OpenAIChatModel.java:61-71 | with a positive count and every post failing with a foreign exception there are count + 1 posts and the call throws "Operation failed after N retries" |
| FlatModel.NullOptionsAreDefault | src/main/java/io/github/llmkit/chat/openai/OpenAIChatModel.java:53-55 | null options behave as the default options, so the configured model is sent |
| FlatModel.OpenAIChatModel.constructor | src/main/java/io/github/llmkit/chat/openai/OpenAIChatModel.java:46-49 | the model keeps the configuration it is given |
| FlatModel.OpenAIChatModel.Call | src/main/java/io/github/llmkit/chat/openai/OpenAIChatModel.java:51-74 | the call posts to the full URL at least once, and its run is the call specification: retried or single post, then the response parsing |
| FlatModel.OpenAIChatModel.Stream | src/main/java/io/github/llmkit/chat/openai/OpenAIChatModel.java:76-136 | a null callback throws "onDelta callback must not be null" before any request; otherwise the run is the stream specification |

## Left out

- HTTP and SSE transport. OkHttp, `LLMHttpClient`, `HttpClientFactory`, `SseStreamClient` and `SseClient` (with its close-once flag) are not part of this model. Their behaviour enters only as the `post`, `start` and `events` parameters.
- JSON text. Parsing (`JSON.parseObject`, `JSONPath.eval`) and printing (`toJSONString`, `Maps.toJson`) belong to the JSON library. Payloads arrive as parsed trees, or as a failed parse, and request bodies stay maps.
- JSON value conversions. `StringMember` renders only strings, booleans and integers as text. Every other value reads as null, where fastjson would print it.
- Json.ObjectMember / Json.ArrayMember / Json.ObjectItem: fastjson2's conversions beyond strings are left out. A member of another kind (number, boolean, array, or a string other than "" or "null" for `getJSONArray`) is refused, where fastjson2 may convert it, for example by wrapping a scalar in a one-element array. `PipelineClient.ResponseOf` then throws a ClassCastException and `FlatModel.ParseResponse` re-wraps the failure as invalid JSON.
- Json.IntMember: a decimal or a numeric string reads as the default, where fastjson's `getIntValue` converts it (`12.0` or `"12"` gives 12). So `FlatModel.UsageOf` reads such a count as 0. Decimals are opaque bit patterns in this model, so their conversion is left out.
- Threads. The `CountDownLatch` wait of `io` `stream` is an outcome that stays `None` while no close has arrived. The `AtomicBoolean` flags are plain booleans under sequential delivery. The `InterruptedException` of the latch wait ("Stream interrupted") is not modelled.
- Events delivered after the first close of an `io` stream are not seen by the model, because `stream` has already returned.
- Floating-point values (temperature, top-p, penalties) carry their bit pattern only. They are copied and compared, never computed with.
- Integer width. Retry counts, delays and token counts are unbounded integers. Java `int` wrap-around is written out only for hash codes.
- Hash codes. `hashCode` of the two `ChatOptions` classes and of `BaseModelConfig` is not modelled. `FlatMessages.MessageHash` takes the enum constant's identity hash as a parameter.
- Case folding. `equalsIgnoreCase` and the `[DONE]` test fold ASCII letters only.
- Aliasing of maps and lists. A map or list handed to a setter is copied as a value. Later changes through the caller's reference, which Java would share, are not modelled.
- Null elements inside message lists are not representable. A null prompt, message, list or content is, except that `FlatModel.OpenAIChatModel.Call` and `FlatModel.OpenAIChatModel.Stream` take a non-null prompt: the `NullPointerException` Java raises for a null prompt there is not modelled.
- `HashMap.toString` inside `BaseModelConfig.toString` is rendered as `{...}`.
- `NetworkException.isTimeout` / `isConnectionError` depend on runtime class names. Exception classes other than `ProviderException` are constructors of an error datatype.
- Interfaces and wiring are not part of this model: `ChatInterceptor`, `SyncChain`, `StreamChain`, the listener interfaces, `ChatClient`, `ChatRequestSpecBuilder`, `ChatMessageSerializer`, `AiMessageParser`, `OpenAICompatibleChatModel`, the provider subclasses and the `io` `ChatModel` overloads. The same holds for plain value holders (`ChatResponse`, `ChatContext`, `ChatRequestSpec`, the provider configurations) and for the demos.
- Interceptors are described by data: call `next` once or not at all, then map the answer. One that calls `next` several times is not modelled. An `interceptStream` that catches what `next` throws is not modelled either: the client's exception passes through every interceptor.
- The `io` `onDelta` callback cannot throw in the model. In the code its exception is caught and ignored after the delta has been appended, so the observable state is the same.
- UTF-16. Strings are sequences of Unicode scalar values, while Java's `length`, `substring` and `hashCode` count UTF-16 code units. For text outside the Basic Multilingual Plane this changes the results of `FlatStrings.Truncate`, `FlatMessages.StringHash`, `FlatMessages.MessageToString`, `FlatPrompts.Entry` and `FlatPrompts.SlotText`: Java's `truncate` of two emoji to length 1 keeps a lone high surrogate, and `String.hashCode` adds code units, not code points.
- PipelineConfig.ChatConfig.Equals: `BaseModelConfig.equals` also requires both objects to have the same runtime class. The model has one configuration class, so that test is left out.
- FlatStrings.Truncate: the maximum length is a natural number. A negative maximum, for which Java's `substring` throws, is not modelled.
