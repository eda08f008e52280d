# unichat-ts normalisation engine, modelled in Dafny

unichat-ts puts one OpenAI-shaped chat interface in front of several
providers. This project models the part that converts between dialects and
proves properties about it. That part is the `ApiHelper` class in
`src/api/apiHelper.ts` and the request builder and response dispatch of
`ChatHelper` in `src/api/chatHelper.ts`.

- `values.dfy` (`Values`): JSON values, JavaScript truthiness, `undefined`
  versus `null`, string joining, and a JSON codec given as a parameter:
  `parse` is partial and `stringify` is total.
- `types.dfy` (`Types`): messages, content blocks, the three tool dialects,
  the block-oriented provider's response and stream events, the canonical
  response and chunk, the Mistral shapes, and the model registry. The
  registry holds the per-family model lists and the per-model maximum
  lengths.
- `tools.dfy` (`ToolSchema`): `normalizeTools` and `transformToolsToOpenAI`,
  and the round trip between them.
- `blocks.dfy` (`Blocks`): `appendBlockToMessage` and `blockToDict`.
- `conversation.dfy` (`Conversation`): the system-prompt handling of
  `set_defaults`, `transformToolCalls`, `transformMessages` (a loop method
  proved against a function), and `cacheMessages` (a backward loop proved
  against a function), with the "two most recent user turns" properties.
- `response.dfy` (`ResponseNormalizer`): `get_max_tokens`, the two
  stop-reason tables, `convertClaudeToGPT`, `transformResponse` and
  `transform_stream_chunk`.
- `stream_spec.dfy` (`StreamSpec`): `transform_anthropic_stream_to_openai`
  as a state machine.
  - One `Transition` per provider event, which may emit one chunk.
  - `Run` over a finite event sequence.
  - `FinalHistory` for the end of the stream.
  - Lemmas on text reassembly, tool-argument reassembly, the tool-call
    index, and committing each message exactly once.
- `stream.dfy` (`StreamEngine`): the imperative form of the stream engine.
  - The class `ApiHelper` owns `anthropicConversation`.
  - An `AnthropicStream` object holds the generator's locals as fields, with
    `Step` and `Finish` methods.
  - `Step` is proved equal to `Transition`.
  - `ApiHelper.TransformAnthropicStream` runs the loop and is proved equal
    to `TransformStream`.
- `chat.dfy` (`Chat`): the class `ChatHelper` with `get_response` as
  `GetResponse`. It returns the request it would send and updates
  `temperature` and `tools` as the source does. `handle_response` is
  modelled both as written and corrected.

Clocks are parameters:
- the `now` of the stream engine and of `transform_stream_chunk` is in
  milliseconds, and the creation time is `now / 1000`;
- the `now` of `convertClaudeToGPT` is already in seconds.

The stream engine behaves as follows:
- a stream that ends without `message_stop` commits the open message as it
  stands, empty or not, and adds no diagnostic block;
- `message_stop` resets only the message and the tool index, not the open
  tool call's id, name or buffer.

Where the source reads a missing or `null` id, name or stop reason only for
truthiness, the empty string stands for it.

## Model

| member | source | states |
|---|---|---|
| ToolSchema.NormalizeTool | src/api/apiHelper.ts:151-173 | a wrapped tool keeps the name and description of its `function` and takes `parameters` as its schema; the result never carries a cache hint |
| ToolSchema.NormalizeTools | src/api/apiHelper.ts:143-174 | one canonical tool per input tool, same length, each the normalisation of the tool at the same position |
| ToolSchema.LooseSchemaResolution | src/api/apiHelper.ts:162-172 | a loose tool's schema is `inputSchema` if present, else `input_schema`, else the empty object schema with no extra properties allowed |
| ToolSchema.TransformToolsToOpenAI | src/api/apiHelper.ts:132-141 | one wrapped tool per canonical tool, same length |
| ToolSchema.TransformedToolsAreFunctions | src/api/apiHelper.ts:132-141 | every wrapped tool has type "function" and the name, description and schema of the tool at the same position |
| ToolSchema.NormalizeAfterWrap | src/api/apiHelper.ts:132-174 | wrapping and then normalising gives the tools back with their cache hints cleared, and gives them back exactly when none had a hint |
| ToolSchema.WrapAfterNormalize | src/api/apiHelper.ts:132-174 | normalising wrapped tools of type "function" and wrapping them again gives the same declarations |
| Blocks.AppendBlock | src/api/apiHelper.ts:753-803 | role, tool calls and tool-call id are kept, and the content always comes back as an array |
| Blocks.AppendTextExtends | src/api/apiHelper.ts:767-773 | appending text extends the message's text by exactly that text, whether merged into a trailing text block or pushed, and no tool use changes |
| Blocks.AppendToolUseExtends | src/api/apiHelper.ts:774-780 | a tool use with non-empty id and name is pushed last without a cache hint and adds no text |
| Blocks.BlockToDict | src/api/apiHelper.ts:712-751 | the result is `null` exactly when the block is not an object with a truthy type; otherwise it is an object with the same type |
| Blocks.BlockToDictIdempotent | src/api/apiHelper.ts:712-751 | reducing a reduced block changes nothing |
| Blocks.BlockToDictDropsHint | src/api/apiHelper.ts:712-751 | on a well-formed typed block, `blockToDict` gives the same block without its cache hint |
| Conversation.SetDefaults | src/api/apiHelper.ts:93-129 | the merging table is a parameter; the conversation never grows; a non-empty system prompt comes back only for an Anthropic-family model; a conversation without a leading system message, or a model that is neither Anthropic nor "o1"/"o3", comes back unchanged with no prompt |
| Conversation.AnthropicSystemPrompt | src/api/apiHelper.ts:100-109 | a leading system message, and only it, is removed and its string content or first text block becomes the prompt; without one nothing changes |
| Conversation.MergedSystemPrompt | src/api/apiHelper.ts:110-117 | for a merging reasoning model the system message is dropped, the next message starts with the rendered system text and a blank line, and later messages are unchanged |
| Conversation.MergedLoneSystemPrompt | src/api/apiHelper.ts:110-117 | for a merging reasoning model a conversation holding only the system message becomes empty |
| Conversation.RelabelledSystemPrompt | src/api/apiHelper.ts:118-121 | other "o1"/"o3" models get the system message relabelled `developer` with the formatting prefix; nothing else changes |
| Conversation.PreviewRelabelledAsWritten | src/api/apiHelper.ts:110-121 | with the table as written, "o1-preview" keeps the system message, relabelled `developer`, while the misspelled "o1-prewiew" is merged |
| Conversation.PreviewMergedCorrected | src/api/apiHelper.ts:110-117 | with the corrected table, "o1-preview" merges the system message into the next one, exactly as "o1-mini" does |
| Conversation.ToolCallToBlock | src/api/apiHelper.ts:443-459 | a tool call becomes a tool use with the same id and name; its input is the parsed arguments, or `{"__raw_args__": arguments}` when they do not parse |
| Conversation.TransformToolCalls | src/api/apiHelper.ts:442-460 | one tool use per call, in order |
| Conversation.TransformMessageShape | src/api/apiHelper.ts:462-520 | no rewritten message has the tool role, string content or pending tool calls; the role is kept except that tool becomes user |
| Conversation.TransformMessageCases | src/api/apiHelper.ts:462-520 | assistant tool calls become tool-use blocks in order and are deleted; a tool message becomes a user message with one tool result for `tool_call_id`; string content becomes one text block; anything else is unchanged |
| Conversation.TransformedMessages | src/api/apiHelper.ts:462-520 | one rewritten message per input message |
| Conversation.TransformMessages | src/api/apiHelper.ts:462-520 | the loop yields exactly one rewritten message per input, in the same order |
| Conversation.AddCacheHint | src/api/apiHelper.ts:685-701 | string content becomes one hinted text block; every block of array content gets the hint; other content is unchanged |
| Conversation.CachedMessages | src/api/apiHelper.ts:677-709 | the length is kept |
| Conversation.CacheMessages | src/api/apiHelper.ts:677-709 | the backward loop with its `userMessages` counter computes exactly `CachedMessages` |
| Conversation.CachedMessagesShape | src/api/apiHelper.ts:677-709 | roles are kept, every message that is not hinted is unchanged, and a hinted message carries the hint on all of its blocks |
| Conversation.AtMostTwoHinted | src/api/apiHelper.ts:677-709 | no three messages are all hinted |
| Conversation.LastUserHinted | src/api/apiHelper.ts:677-709 | the most recent user message is hinted |
| Conversation.SecondLastUserHinted | src/api/apiHelper.ts:677-709 | the user message before the most recent one is hinted |
| ResponseNormalizer.GetMaxTokens | src/api/apiHelper.ts:41-43 | the registry entry when present and non-zero, otherwise 4096 |
| ResponseNormalizer.FinishReason | src/api/apiHelper.ts:209-216 | the non-streaming finish reason is always one of "tool_calls", "stop", "length" |
| ResponseNormalizer.StreamFinishReason | src/api/apiHelper.ts:397-403 | the streaming finish reason is `null` exactly when the stop reason is missing |
| ResponseNormalizer.StopReasonTablesAgree | src/api/apiHelper.ts:209-216 | both tables map tool_use, end_turn, stop_sequence and max_tokens alike; any other value passes through when streaming and becomes "stop" otherwise, and a missing one is "stop" |
| ResponseNormalizer.ConvertClaudeToGPT | src/api/apiHelper.ts:176-243 | exactly one choice, at index 0, with the response's id, model and role; the mapped finish reason; total tokens equal input plus output tokens |
| ResponseNormalizer.ContentIsJoinedText | src/api/apiHelper.ts:178-181 | the content is the text blocks' texts joined by newlines, and is `null` exactly when there is no text or a single empty text |
| ResponseNormalizer.ToolCallsMatchBlocks | src/api/apiHelper.ts:183-206 | the k-th tool call comes from the k-th tool-use block, with its id, name and serialised input, and has type "function" |
| ResponseNormalizer.ToolCallsPresence | src/api/apiHelper.ts:183-225 | `tool_calls` is present exactly when a tool-use block exists, with one call per block, and it is the list `ToolCallsMatchBlocks` describes (the k-th call from the k-th tool-use block, in order) |
| ResponseNormalizer.ToolCallsRoundTrip | src/api/apiHelper.ts:442-460 | with a codec whose parse undoes its stringify, turning the converted calls back into blocks gives the response's tool-use blocks |
| ResponseNormalizer.RelabelToolCall | src/api/apiHelper.ts:540-547 | id, name and arguments are kept; a missing or empty type becomes "function" |
| ResponseNormalizer.ZeroCountLostAsWritten | src/api/apiHelper.ts:553-555 | as written, a reported prompt count of 0 with no camelCase field comes out missing |
| ResponseNormalizer.TransformResponseAsWritten | src/api/apiHelper.ts:523-561 | `transformResponse` as written: without a Mistral model name the response is unchanged; id, object type, model, creation time and number of choices are kept; each usage count is the snake_case count when truthy, else the camelCase one |
| ResponseNormalizer.TransformResponse | src/api/apiHelper.ts:523-561 | the corrected form named under Findings (merge with `??`): id, model, creation time and the number of choices are kept |
| ResponseNormalizer.AsWrittenAgreesWithoutZeros | src/api/apiHelper.ts:553-555 | when no snake_case count is 0, the as-written and corrected forms give the same response |
| ResponseNormalizer.TransformResponseKeepsCounts | src/api/apiHelper.ts:527-556 | for a Mistral model each snake_case count is kept, zero included, and the camelCase count is used only where it is missing; choices keep index, role, content and finish reason, and every tool call gets a type |
| ResponseNormalizer.TransformResponseIdempotent | src/api/apiHelper.ts:523-561 | relabelling a relabelled response changes nothing |
| ResponseNormalizer.RelabelToolDeltas | src/api/apiHelper.ts:594-604 | a tool-call delta's index defaults to its position and its type to "function"; id, name and arguments are kept |
| ResponseNormalizer.TransformStreamChunk | src/api/apiHelper.ts:565-634 | a missing chunk gives `null`; otherwise one choice, the chunk's id and the chunk object type; the creation time falls back to the clock in seconds and the model to the model name; the delta's role and content come from the first choice, its tool-call deltas are those relabelled by `RelabelToolDeltas` (absent when there are none), and its index defaults to 0; without choices the delta is empty with no finish reason |
| ResponseNormalizer.CanonicalChunkUnchanged | src/api/apiHelper.ts:583-634 | a chunk already in canonical form passes through unchanged, whatever the model name and clock |
| StreamSpec.Initial | src/api/apiHelper.ts:250-263 | the stream starts with no message, no open tool call, an empty buffer, index 0, and the record as it was |
| StreamSpec.MakeChunk | src/api/apiHelper.ts:250-256 | every chunk carries the current id, the chunk object type, the model name, the creation time and the fingerprint, with one choice at index 0 |
| StreamSpec.ClosedBlock | src/api/apiHelper.ts:355-372 | a parsable buffer gives the tool use with the parsed input; otherwise the malformed-input error text |
| StreamSpec.Transition | src/api/apiHelper.ts:265-433 | emitted chunks carry the state's id; a chunk's text is the event's text; message_start, message_delta and tool_use starts always emit, while block stops, message_stop and other events never do; the finish reason is mapped; the record changes only at message_stop, which commits the open message |
| StreamSpec.TransitionPreservesInv | src/api/apiHelper.ts:417-425 | outside a message the tool index stays 0 |
| StreamSpec.ToolIndexDiscipline | src/api/apiHelper.ts:292-377 | a tool start announces the current index with empty arguments; fragments are forwarded under that index only while a call is open; only closing an open call inside a message moves the index, by one; message_stop resets it |
| StreamSpec.CommitOnceStep | src/api/apiHelper.ts:417-439 | no event other than message_start changes the size of the record the stream will leave, nor what it has already committed |
| StreamSpec.Run | src/api/apiHelper.ts:265-434 | at most one chunk per event |
| StreamSpec.RunAppend | src/api/apiHelper.ts:265-434 | running two event sequences in turn is running their concatenation |
| StreamSpec.RunPreservesInv | src/api/apiHelper.ts:417-425 | the index invariant holds after any sequence of events |
| StreamSpec.HistoryOnlyGrows | src/api/apiHelper.ts:417-425 | the record only grows, and does not change without a message_stop |
| StreamSpec.FinalHistory | src/api/apiHelper.ts:437-439 | at the end the open message, if any, is appended and nothing else is added |
| StreamSpec.MessageStopThenFinish | src/api/apiHelper.ts:417-439 | a stream cut off before message_stop leaves the same record as one that delivered it |
| StreamSpec.CommitOnce | src/api/apiHelper.ts:417-439 | without a message_start, any events leave a record exactly one open message longer than the one committed so far, keeping what was committed |
| StreamSpec.TransformStream | src/api/apiHelper.ts:246-440 | the record after the stream extends the record before it; at most one chunk per event |
| StreamSpec.StreamedTextMatches | src/api/apiHelper.ts:320-329 | the text of the chunks yielded is exactly the text of the text deltas, in order |
| StreamSpec.TransitionExtendsText | src/api/apiHelper.ts:290-378 | inside a message, one event that neither starts nor stops a message and does not close an open tool call extends the message's text by the event's text and adds no tool use; with no call open, an event that opens none leaves none open |
| StreamSpec.TextReassembled | src/api/apiHelper.ts:290-378 | inside a message, events that neither start nor stop a message extend the rebuilt text by exactly their text and add no tool use, when either no call is open and none is opened (block stops included) or no block is stopped |
| StreamSpec.TextBlockReassembled | src/api/apiHelper.ts:290-378 | a whole text block (start, text deltas, stop) with no call open appends exactly the deltas' texts and adds no tool use |
| StreamSpec.ArgumentsAccumulate | src/api/apiHelper.ts:330-349 | inside an open call every fragment is buffered and forwarded under the call's index, in order |
| StreamSpec.OpenTool | src/api/apiHelper.ts:292-317 | a tool_use start records id and name, clears the buffer and announces the call |
| StreamSpec.CloseTool | src/api/apiHelper.ts:353-378 | closing an open call inside a message appends the block built from the buffer, resets the accumulators and advances the index |
| StreamSpec.OpenAndFill | src/api/apiHelper.ts:292-349 | a tool start and its fragments leave the whole argument text in the buffer and yield the announcement followed by one fragment chunk each |
| StreamSpec.ToolCallReassembled | src/api/apiHelper.ts:292-378 | a complete tool-use block yields the announcement and then every fragment under one index; the message gains the block made from the whole buffer; the next call gets the next index |
| StreamSpec.ClosedBlockRoundTrip | src/api/apiHelper.ts:353-362 | with a codec whose parse undoes its stringify, closing a block whose buffer is the serialised input appends exactly that tool use and no text |
| StreamSpec.ToolCallRoundTrip | src/api/apiHelper.ts:353-362 | with a codec whose parse undoes its stringify, fragments spelling out the serialised input leave exactly that tool use as the message's newest, with no text added |
| StreamEngine.ApiHelper.constructor | src/api/apiHelper.ts:31-39 | the record starts empty |
| StreamEngine.ApiHelper.TransformAnthropicStream | src/api/apiHelper.ts:246-440 | the chunks yielded and the record left are those of `TransformStream`, from the record as it was |
| StreamEngine.AnthropicStream.constructor | src/api/apiHelper.ts:250-263 | the provisional id is "chatcmpl-" followed by the clock, the creation time is the clock in seconds, and the state is `Initial` |
| StreamEngine.AnthropicStream.Step | src/api/apiHelper.ts:265-433 | the new fields, the new record and the chunk returned are those of `Transition` |
| StreamEngine.AnthropicStream.Finish | src/api/apiHelper.ts:437-439 | the record becomes `FinalHistory` of the state |
| Chat.FamilyOf | src/api/chatHelper.ts:39-97 | the Mistral list is tested first, then the Anthropic list, then the Grok, OpenAI, Gemini and DeepSeek lists |
| Chat.AlibabaOnlyUnsupported | src/api/chatHelper.ts:82-97 | a model listed only among the Alibaba models takes the not-supported branch |
| Chat.ClampTemperature | src/api/chatHelper.ts:52 | the temperature becomes at most 1, and values up to 1 are unchanged |
| Chat.HintLastTool | src/api/chatHelper.ts:61-66 | only the last tool is replaced, by a copy with the cache hint |
| Chat.SystemFor | src/api/chatHelper.ts:69-76 | `system` is the role string exactly when `cached` is false; otherwise two text blocks, the role and then the cached text with the hint |
| Chat.AnthropicRequestFacts | src/api/chatHelper.ts:51-80 | the request's temperature is at most 1 and its length limit is `get_max_tokens`; tools are present exactly when given, and then only the last one is hinted; one message per input message, none with the tool role or string content |
| Chat.ChatHelper.constructor | src/api/chatHelper.ts:15-35 | every field holds its argument |
| Chat.ChatHelper.GetResponse | src/api/chatHelper.ts:37-106 | the request per family; the Anthropic branch sends `AnthropicParams` and stores the clamped temperature and the hinted tools, while the other branches change nothing; an unlisted model gives "An unexpected error occurred: Model <name> is currently not supported", the not-supported error as the catch block rewraps it |
| Chat.ChatHelper.HandleResponseAsWritten | src/api/chatHelper.ts:109-125 | an Anthropic response becomes exactly `ConvertClaudeToGPT` of it; a response of any other non-Mistral family is returned unchanged |
| Chat.ChatHelper.HandleResponse | src/api/chatHelper.ts:109-125 | an Anthropic response becomes exactly `ConvertClaudeToGPT` of it, one choice with the mapped finish reason; a Mistral response is relabelled with its id and choices kept; any other is returned unchanged |
| Chat.MistralUntouchedAsWritten | src/api/chatHelper.ts:115-119 | as written, a Mistral response comes back exactly as the client returned it |
| Chat.MistralRelabelled | src/api/chatHelper.ts:115-119 | with the model name passed on, camelCase usage counts move to the snake_case names and every tool call gets a type |

## Left out

- Client construction and the SDK calls (`get_client`, `client.messages.create` and the others) are not modelled. `GetResponse` returns the request it would send.
- `Conversation.SetDefaults` does not model the "not found" error that the client lookup raises for a model in no list. It also returns no client.
- `JSON.parse` and `JSON.stringify` are a codec parameter: `parse` is partial and `stringify` is total. Round trips assume that parse undoes stringify.
  - Because `stringify` is total, the fallback after a failed serialisation in `convertClaudeToGPT` cannot be reached and is not modelled.
- `Date.now()` is a parameter, and `console` logging is not modelled.
- `transform_stream` and `handle_stream` are not modelled; they are async plumbing. The provider stream is a finite sequence of events processed in order.
- The catch block of `get_response` is modelled only for the not-supported error it rewraps. Errors from the SDK calls, including the `API status error` form for errors carrying a response, are not, because the SDK calls are not modelled.
- These catch blocks are not modelled, because with typed inputs the code they guard cannot throw:
  - the error wrapping in `handle_response`;
  - the `transform_stream_chunk` error chunk;
  - the rethrow of `appendBlockToMessage`.
- The duplicated, unparsable fragment in the stream engine's `message_delta` case (lines 381-392) is not modelled. The model follows the complete case that comes after it.
- `Chat.ChatHelper.GetResponse`: the Mistral and OpenAI-compatible requests carry no `tools`. With a non-empty tools list the source calls a `transformTools` that does not exist, and the resulting `TypeError` is rewrapped as "An unexpected error occurred: …"; the model sends the request without tools where the source would return that error. `handle_stream` calls `transformStream` and `transformStreamChunk`, which do not exist either.
- `Chat.ChatHelper.GetResponse`: the source overwrites the last element of the caller's own tools array. The model only reassigns the field, so the caller's copy is unaffected.
- Values.ToLower: folds only the ASCII letters A to Z, whereas JavaScript's `toLowerCase` folds every Unicode letter; model names outside ASCII may therefore match the Mistral list differently.
- Undefined `tools` is treated as an empty list.
- `Conversation.SetDefaults`: the source changes the role and content of message objects it shares with the caller. The model returns new values.
- `Blocks.AppendBlock`: the source extends a content array that may be shared, and appends to the trailing text block in place. The model returns a new message. In the stream engine no other holder of that array exists.
- Only the Anthropic branch of `ChatHelper.get_response` is modelled in detail. The branches of the other families pass their fields through unchanged.
- The model registry (`MODELS_LIST`, `MODELS_MAX_TOKEN`) is external configuration. It is a `Registry` value.
- Token counts and timestamps are unbounded integers. Temperature is a real, and the clamp is the only operation on it.
- JSON numbers are integers (`Values.Json`), so tool arguments with fractional numbers are outside the codec's domain and outside the round-trip lemmas.
- `logprobs` is kept as an optional JSON value.
- The usage carried by `message_delta` is not modelled, because the source ignores it.
- Message fields other than role, content, `tool_calls` and `tool_call_id` are not modelled. Neither are image and other block kinds beyond text, tool use, tool result and thinking.

## Findings

| source | as written | input that shows it | evidently intended | confidence | as-written member | corrected member |
|---|---|---|---|---|---|---|
| src/api/apiHelper.ts:112 | the merging table tests the misspelled name "o1-prewiew" | model "o1-preview" with a leading system message: relabelled `developer` instead of merged | "o1-preview" merges like "o1-mini" | medium, not executed | Conversation.PreviewRelabelledAsWritten | Conversation.PreviewMergedCorrected |
| src/api/chatHelper.ts:118 | `transformResponse(response)` is called without the model name, so its guard `modelName && ...` fails | any Mistral model's response: returned unrelabelled, with camelCase usage and untyped tool calls | pass `this.model_name` so the response is relabelled | high, not executed | Chat.MistralUntouchedAsWritten | Chat.MistralRelabelled |
| src/api/apiHelper.ts:553-555 | usage counts are merged with `\|\|`, so a count of 0 falls through to the camelCase field | usage `{prompt_tokens: 0}` with no `promptTokens`: `prompt_tokens` comes out missing | merge with `??`, keeping a reported 0 | medium, not executed | ResponseNormalizer.ZeroCountLostAsWritten | ResponseNormalizer.TransformResponseKeepsCounts |
