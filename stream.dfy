/** The imperative form of the stream engine. `ApiHelper` owns the
    conversation record `anthropic_conversation`; the generator of
    `transform_anthropic_stream_to_openai` becomes an `AnthropicStream`
    object whose fields are the generator's locals, one `Step` per
    provider event and `Finish` after the last one. */
module StreamEngine {
  import opened Values
  import opened Types
  import opened Blocks
  import opened ResponseNormalizer
  import opened StreamSpec

  class ApiHelper {
    /** Every message the stream engine has rebuilt, in order. */
    var anthropicConversation: seq<Message>
    const registry: Registry
    const codec: JsonCodec

    constructor(registry: Registry, codec: JsonCodec)
      ensures this.registry == registry && this.codec == codec && anthropicConversation == []
    {
      this.registry := registry;
      this.codec := codec;
      anthropicConversation := [];
    }

    /** `transform_anthropic_stream_to_openai(originalStream, modelName)`,
        with the provider stream given as the sequence of its events and
        `now` the clock reading in milliseconds. Yields the canonical
        chunks and leaves the rebuilt messages appended to the record. */
    method TransformAnthropicStream(events: seq<StreamEvent>, modelName: string, now: nat)
      returns (chunks: seq<OpenAIChunk>)
      modifies this
      ensures StreamOutcome(chunks, anthropicConversation)
           == TransformStream(StreamConfig(modelName, now / 1000, codec), "chatcmpl-" + DecimalString(now),
                              old(anthropicConversation), events)
    {
      var stream := new AnthropicStream(this, modelName, now);
      ghost var s0 := stream.State();
      chunks := [];
      for i := 0 to |events|
        invariant Run(stream.cfg, s0, events[..i]) == RunResult(stream.State(), chunks)
      {
        var out := stream.Step(events[i]);
        if out.Some? {
          chunks := chunks + [out.value];
        }
        assert events[..i + 1][..i] == events[..i];
      }
      assert events[..|events|] == events;
      stream.Finish();
    }
  }

  class AnthropicStream {
    const helper: ApiHelper
    const cfg: StreamConfig
    var baseId: string
    var message: Option<Message>
    var toolId: string
    var toolName: string
    var buffer: string
    var toolIndex: nat

    ghost function State(): StreamState
      reads this, helper
    {
      StreamState(baseId, message, toolId, toolName, buffer, toolIndex, helper.anthropicConversation)
    }

    /** The generator's set-up: `baseChunk` with a provisional id made
        from the clock, no message and no open tool call. */
    constructor(helper: ApiHelper, modelName: string, now: nat)
      ensures this.helper == helper && cfg == StreamConfig(modelName, now / 1000, helper.codec)
      ensures State() == Initial("chatcmpl-" + DecimalString(now), helper.anthropicConversation)
    {
      this.helper := helper;
      cfg := StreamConfig(modelName, now / 1000, helper.codec);
      baseId := "chatcmpl-" + DecimalString(now);
      message := None;
      toolId := "";
      toolName := "";
      buffer := "";
      toolIndex := 0;
    }

    /** One pass of the generator's loop: handle `ev`, and return the chunk
        to yield, if any. */
    method Step(ev: StreamEvent) returns (out: Option<OpenAIChunk>)
      modifies this, helper
      ensures StepResult(State(), out) == Transition(cfg, old(State()), ev)
    {
      out := None;
      match ev {
        case MessageStart(id, role) =>
          message := Some(Message(role, Blocks([]), None, None));
          baseId := id;
          out := Some(MakeChunk(cfg, baseId, ChunkDelta(Some(role), Nullable.Null, None), None));
        case ContentBlockStart(block) =>
          if block.ToolUseStart? {
            toolId := block.id;
            toolName := block.name;
            buffer := "";
            out := Some(MakeChunk(cfg, baseId, ToolDelta(toolIndex, toolId, toolName, ""), None));
          }
        case ContentBlockDelta(delta) =>
          match delta {
            case TextDelta(t) =>
              if message.Some? {
                message := Some(AppendBlock(message.value, Text(t, false)));
              }
              out := Some(MakeChunk(cfg, baseId, ChunkDelta(None, Nullable.Present(t), None), None));
            case InputJsonDelta(p) =>
              buffer := buffer + p;
              if toolId != "" && toolName != "" {
                out := Some(MakeChunk(cfg, baseId, ToolDelta(toolIndex, toolId, toolName, p), None));
              }
            case OtherDelta(_) =>
          }
        case ContentBlockStop =>
          if message.Some? && toolId != "" && toolName != "" {
            var parsed := cfg.codec.parse(buffer);
            if parsed.Some? {
              message := Some(AppendBlock(message.value, ToolUse(toolId, toolName, parsed.value, false)));
            } else {
              message := Some(AppendBlock(message.value, Text(MalformedInputText(toolName, toolId), false)));
            }
            toolId := "";
            toolName := "";
            buffer := "";
            toolIndex := toolIndex + 1;
          }
        case MessageDelta(stopReason) =>
          out := Some(MakeChunk(cfg, baseId, ChunkDelta(None, Nullable.Absent, None), StreamFinishReason(stopReason)));
        case MessageStop =>
          if message.Some? {
            helper.anthropicConversation := helper.anthropicConversation + [message.value];
            message := None;
            toolIndex := 0;
          }
        case OtherEvent(_) =>
      }
    }

    /** After the provider stream ends: a message still open is added to
        the record. */
    method Finish()
      modifies helper
      ensures helper.anthropicConversation == FinalHistory(old(State()))
    {
      if message.Some? {
        helper.anthropicConversation := helper.anthropicConversation + [message.value];
      }
    }
  }
}
