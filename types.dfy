/** The canonical data model shared by the normalisation engine: roles,
    messages and content blocks, tool declarations in their three
    dialects, the block-oriented provider's response and stream events,
    the canonical (OpenAI-shaped) response and chunk, the Mistral shapes
    that are relabelled, and the model registry. Shapes follow
    src/types.ts; fields the engine never reads are left out. */
module Types {
  import opened Values

  datatype Role = System | User | Assistant | Tool | Developer

  /** A content block. Every variant carries the cache hint
      (`cache_control: {type: "ephemeral"}`) as a flag. */
  datatype Block =
    | Text(text: string, cached: bool)
    | ToolUse(id: string, name: string, input: Json, cached: bool)
    | ToolResult(toolUseId: string, content: Option<string>, isError: Option<bool>, cached: bool)
    | Thinking(redacted: bool, cached: bool)

  /** `content?: string | ContentBlock[] | null`. */
  datatype Content = Absent | Null | Str(s: string) | Blocks(blocks: seq<Block>)

  /** An OpenAI-style tool call (`GPTToolCall`); `callType` is `type`, and
      `name`/`arguments` are the fields of `function`. */
  datatype ToolCall = ToolCall(index: Option<int>, id: string, callType: Option<string>, name: string, arguments: string)

  datatype Message = Message(role: Role, content: Content, toolCalls: Option<seq<ToolCall>>, toolCallId: Option<string>)

  // ----- tool declarations -----

  datatype Schema = Schema(schemaType: string, properties: Json, required: seq<string>, additionalProperties: Option<bool>)

  /** The canonical tool (`InputTool`), with the cache hint the request
      builder may attach to it. */
  datatype InputTool = InputTool(name: string, description: string, inputSchema: Schema, cacheHint: bool)

  /** The function-wrapped dialect (`OutputTool`): `{type, function: {name,
      description, parameters}}`. */
  datatype OutputTool = OutputTool(toolType: string, name: string, description: string, parameters: Schema)

  /** A tool as a caller may supply it: with both `type` and `function`
      (wrapped), or anything else (loose), whose schema may be under
      `inputSchema` or `input_schema`. */
  datatype ToolDecl =
    | Wrapped(tool: OutputTool)
    | Loose(name: string, description: string, inputSchemaCamel: Option<Schema>, inputSchemaSnake: Option<Schema>)

  // ----- block-oriented provider: non-streaming response -----

  datatype ClaudeUsage = ClaudeUsage(inputTokens: int, outputTokens: int)

  datatype ClaudeResponse = ClaudeResponse(
    id: string, role: Role, content: seq<Block>, model: string,
    stopReason: Option<string>, usage: ClaudeUsage)

  // ----- canonical response -----

  datatype GPTMessage = GPTMessage(role: Role, content: Option<string>, toolCalls: Option<seq<ToolCall>>)

  /** One choice; `logprobs` is always `null` on this path. */
  datatype GPTChoice = GPTChoice(index: int, message: GPTMessage, finishReason: string)

  datatype Usage = Usage(promptTokens: int, completionTokens: int, totalTokens: int)

  datatype GPTResponse = GPTResponse(
    id: string, objectType: string, created: int, model: string,
    choices: seq<GPTChoice>, usage: Usage, systemFingerprint: string)

  // ----- Mistral non-streaming response (relabelled, not converted) -----

  /** Usage as Mistral may report it: snake_case or camelCase counts. */
  datatype RawUsage = RawUsage(
    promptTokens: Option<int>, promptTokensCamel: Option<int>,
    completionTokens: Option<int>, completionTokensCamel: Option<int>,
    totalTokens: Option<int>, totalTokensCamel: Option<int>)

  datatype MistralChoice = MistralChoice(
    index: int, role: Role, content: Option<string>, toolCalls: Option<seq<ToolCall>>,
    finishReason: Option<string>, logprobs: Option<Json>)

  datatype MistralResponse = MistralResponse(
    id: string, objectType: string, created: int, model: string,
    choices: seq<MistralChoice>, usage: RawUsage)

  // ----- canonical streaming chunk -----

  datatype ChunkDelta = ChunkDelta(role: Option<Role>, content: Nullable<string>, toolCalls: Option<seq<ToolCall>>)

  datatype ChunkChoice = ChunkChoice(index: int, delta: ChunkDelta, logprobs: Option<Json>, finishReason: Option<string>)

  datatype OpenAIChunk = OpenAIChunk(
    id: string, objectType: string, created: int, model: string,
    systemFingerprint: Option<string>, choices: seq<ChunkChoice>)

  const ChunkObject: string := "chat.completion.chunk"
  const Fingerprint: string := "unichat-ts"

  // ----- Mistral streaming chunk, before relabelling -----

  datatype RawDelta = RawDelta(role: Option<Role>, content: Nullable<string>, toolCalls: Option<seq<ToolCall>>)

  datatype RawStreamChoice = RawStreamChoice(index: Option<int>, delta: RawDelta, finishReason: Option<string>, logprobs: Option<Json>)

  datatype RawChunk = RawChunk(
    id: string, created: Option<int>, model: Option<string>,
    choices: Option<seq<RawStreamChoice>>, systemFingerprint: Option<string>)

  // ----- block-oriented provider: stream events -----

  datatype BlockStart = TextStart | ToolUseStart(id: string, name: string) | OtherStart(kind: string)

  datatype BlockDelta = TextDelta(text: string) | InputJsonDelta(partialJson: string) | OtherDelta(kind: string)

  /** One provider event. An empty string stands for a missing or `null`
      id, name or stop reason: the engine tests them for truthiness and
      otherwise only copies them into chunks and blocks, where `null` and
      `""` are not told apart.
      `OtherEvent` is any type the engine has no case for (such as `ping`). */
  datatype StreamEvent =
    | MessageStart(messageId: string, role: Role)
    | ContentBlockStart(block: BlockStart)
    | ContentBlockDelta(delta: BlockDelta)
    | ContentBlockStop
    | MessageDelta(stopReason: string)
    | MessageStop
    | OtherEvent(kind: string)

  // ----- model registry (external configuration) -----

  /** The model lists per provider family and the per-model maximum
      completion lengths. */
  datatype Registry = Registry(
    mistral: seq<string>, anthropic: seq<string>, grok: seq<string>,
    gemini: seq<string>, deepseek: seq<string>, alibaba: seq<string>,
    openai: seq<string>, maxTokens: map<string, int>)
  {
    predicate IsAnthropic(name: string) { name in anthropic }
    predicate IsMistral(name: string) { name in mistral }
  }
}
