/** The response normaliser of `ApiHelper`: `convertClaudeToGPT` for the
    block-oriented provider, the two stop-reason tables, the Mistral
    relabellings `transformResponse` and `transform_stream_chunk`, and
    `get_max_tokens`. */
module ResponseNormalizer {
  import opened Values
  import opened Types
  import opened Conversation

  const DefaultMaxTokens: int := 4096

  /** `get_max_tokens`: the registry entry when present and non-zero
      (`||` treats 0 as missing), else 4096. */
  function GetMaxTokens(registry: Registry, model: string): (r: int)
    ensures r != 0
    ensures model in registry.maxTokens && registry.maxTokens[model] != 0 ==> r == registry.maxTokens[model]
    ensures !(model in registry.maxTokens && registry.maxTokens[model] != 0) ==> r == DefaultMaxTokens
  {
    if model in registry.maxTokens && registry.maxTokens[model] != 0 then registry.maxTokens[model]
    else DefaultMaxTokens
  }

  // ----- stop reasons -----

  /** The non-streaming table: any other value, `null` included, is
      "stop". */
  function FinishReason(stopReason: Option<string>): (r: string)
    ensures r in {"tool_calls", "stop", "length"}
  {
    if stopReason == Some("tool_use") then "tool_calls"
    else if stopReason == Some("end_turn") || stopReason == Some("stop_sequence") then "stop"
    else if stopReason == Some("max_tokens") then "length"
    else "stop"
  }

  /** The streaming table: an empty (missing) stop reason gives `null`,
      an unknown one passes through. */
  function StreamFinishReason(stopReason: string): (r: Option<string>)
    ensures r.None? <==> stopReason == ""
  {
    if stopReason == "" then None
    else if stopReason == "tool_use" then Some("tool_calls")
    else if stopReason == "end_turn" || stopReason == "stop_sequence" then Some("stop")
    else if stopReason == "max_tokens" then Some("length")
    else Some(stopReason)
  }

  predicate KnownStopReason(s: string) {
    s == "tool_use" || s == "end_turn" || s == "stop_sequence" || s == "max_tokens"
  }

  /** The two tables agree on the four documented stop reasons; on any
      other non-empty value the streaming path passes it through while the
      non-streaming path reports "stop". */
  lemma StopReasonTablesAgree(s: string)
    requires s != ""
    ensures KnownStopReason(s) ==> StreamFinishReason(s) == Some(FinishReason(Some(s)))
    ensures !KnownStopReason(s) ==> StreamFinishReason(s) == Some(s) && FinishReason(Some(s)) == "stop"
    ensures FinishReason(Some("tool_use")) == "tool_calls" && FinishReason(Some("max_tokens")) == "length"
    ensures FinishReason(Some("end_turn")) == "stop" && FinishReason(Some("stop_sequence")) == "stop"
    ensures FinishReason(None) == "stop"
  {
  }

  // ----- convertClaudeToGPT -----

  /** The texts of the text blocks, in order. */
  function TextParts(bs: seq<Block>): (r: seq<string>)
    ensures |r| <= |bs|
  {
    if |bs| == 0 then []
    else (if bs[0].Text? then [bs[0].text] else []) + TextParts(bs[1..])
  }

  /** One tool call per tool-use block, in order. */
  function ToolCallsOf(codec: JsonCodec, bs: seq<Block>): (r: seq<ToolCall>)
    ensures |r| <= |bs|
  {
    if |bs| == 0 then []
    else
      (if bs[0].ToolUse? then [ToolCall(None, bs[0].id, Some("function"), bs[0].name, codec.stringify(bs[0].input))] else [])
      + ToolCallsOf(codec, bs[1..])
  }

  /** `convertClaudeToGPT`, with the clock reading `now` (seconds) given. */
  function ConvertClaudeToGPT(codec: JsonCodec, response: ClaudeResponse, now: int): (r: GPTResponse)
    ensures |r.choices| == 1 && r.choices[0].index == 0
    ensures r.id == response.id && r.model == response.model && r.choices[0].message.role == response.role
    ensures r.usage.promptTokens == response.usage.inputTokens
    ensures r.usage.completionTokens == response.usage.outputTokens
    ensures r.usage.totalTokens == response.usage.inputTokens + response.usage.outputTokens
    ensures r.choices[0].finishReason == FinishReason(response.stopReason)
  {
    var text := Join(TextParts(response.content), "\n");
    var calls := ToolCallsOf(codec, response.content);
    var message := GPTMessage(response.role, if text == "" then None else Some(text),
                              if |calls| > 0 then Some(calls) else None);
    GPTResponse(response.id, "chat.completion", now, response.model,
                [GPTChoice(0, message, FinishReason(response.stopReason))],
                Usage(response.usage.inputTokens, response.usage.outputTokens,
                      response.usage.inputTokens + response.usage.outputTokens),
                Fingerprint)
  }

  /** The k-th tool call is built from the k-th tool-use block: same id and
      name, its input serialised, type "function". */
  lemma {:induction false} ToolCallsMatchBlocks(codec: JsonCodec, bs: seq<Block>)
    ensures |ToolCallsOf(codec, bs)| == |Blocks.ToolUses(bs)|
    ensures forall k :: 0 <= k < |ToolCallsOf(codec, bs)| ==>
      var c := ToolCallsOf(codec, bs)[k];
      var b := Blocks.ToolUses(bs)[k];
      c.id == b.id && c.name == b.name && c.arguments == codec.stringify(b.input)
      && c.callType == Some("function") && c.index.None?
  {
    if |bs| > 0 {
      ToolCallsMatchBlocks(codec, bs[1..]);
    }
  }

  /** The message carries `tool_calls` exactly when the response has at
      least one tool-use block, one call per block, and those calls are
      the ones `ToolCallsMatchBlocks` describes. */
  lemma ToolCallsPresence(codec: JsonCodec, response: ClaudeResponse, now: int)
    ensures var m := ConvertClaudeToGPT(codec, response, now).choices[0].message;
      && (m.toolCalls.Some? <==> |Blocks.ToolUses(response.content)| > 0)
      && (m.toolCalls.Some? ==> |m.toolCalls.value| == |Blocks.ToolUses(response.content)|)
      && (m.toolCalls.Some? ==> m.toolCalls.value == ToolCallsOf(codec, response.content))
  {
    ToolCallsMatchBlocks(codec, response.content);
  }

  /** The content is the text blocks' texts joined by newlines, and is
      `null` exactly when there is no text block or a single empty one. */
  lemma ContentIsJoinedText(codec: JsonCodec, response: ClaudeResponse, now: int)
    ensures var m := ConvertClaudeToGPT(codec, response, now).choices[0].message;
      var parts := TextParts(response.content);
      && (m.content.None? <==> |parts| == 0 || (|parts| == 1 && parts[0] == ""))
      && (m.content.Some? ==> m.content.value == Join(parts, "\n"))
  {
    JoinEmpty(TextParts(response.content), "\n");
  }

  /** Partner of `transformToolCalls`: with a codec whose parse undoes its
      stringify, turning the tool calls of a converted response back into
      blocks gives exactly the response's tool-use blocks (without cache
      hints). */
  lemma {:induction false} ToolCallsRoundTrip(codec: JsonCodec, bs: seq<Block>)
    requires RoundTrips(codec)
    requires forall k :: 0 <= k < |bs| ==> !bs[k].cached
    ensures TransformToolCalls(codec, ToolCallsOf(codec, bs)) == Blocks.ToolUses(bs)
  {
    if |bs| > 0 {
      ToolCallsRoundTrip(codec, bs[1..]);
      var rest := ToolCallsOf(codec, bs[1..]);
      if bs[0].ToolUse? {
        var c := ToolCall(None, bs[0].id, Some("function"), bs[0].name, codec.stringify(bs[0].input));
        assert codec.parse(codec.stringify(bs[0].input)) == Some(bs[0].input);
        assert ToolCallsOf(codec, bs) == [c] + rest;
        var l := TransformToolCalls(codec, [c] + rest);
        assert l == [ToolCallToBlock(codec, c)] + TransformToolCalls(codec, rest);
      } else {
        assert ToolCallsOf(codec, bs) == rest;
      }
    }
  }

  // ----- transformResponse (Mistral) -----

  /** `a || b` on optional token counts: a missing or zero count falls
      through to the other field (which may be missing too). */
  function OrCount(a: Option<int>, b: Option<int>): Option<int> {
    if a.Some? && a.value != 0 then a else b
  }

  /** `a ?? b`: only a missing count falls through. */
  function CoalesceCount(a: Option<int>, b: Option<int>): (r: Option<int>)
    ensures a.Some? ==> r == a
  {
    if a.Some? then a else b
  }

  /** One tool call of a Mistral choice, relabelled: the index is not
      carried over and a missing or empty type becomes "function". */
  function RelabelToolCall(call: ToolCall): (r: ToolCall)
    ensures r.index.None? && r.id == call.id && r.name == call.name && r.arguments == call.arguments
    ensures r.callType == (if call.callType.Some? && call.callType.value != "" then call.callType else Some("function"))
  {
    var ty := if call.callType.Some? && call.callType.value != "" then call.callType.value else "function";
    ToolCall(None, call.id, Some(ty), call.name, call.arguments)
  }

  function RelabelChoice(c: MistralChoice): MistralChoice {
    var calls := if c.toolCalls.Some? then
                   Some(seq(|c.toolCalls.value|, i requires 0 <= i < |c.toolCalls.value| => RelabelToolCall(c.toolCalls.value[i])))
                 else None;
    MistralChoice(c.index, c.role, c.content, calls, c.finishReason, c.logprobs)
  }

  function RelabelChoices(cs: seq<MistralChoice>): (r: seq<MistralChoice>)
    ensures |r| == |cs|
  {
    seq(|cs|, i requires 0 <= i < |cs| => RelabelChoice(cs[i]))
  }

  /** `transformResponse(response, modelName)` as written: the usage counts
      are merged with `||`. A missing or non-Mistral model name returns the
      response unchanged. */
  function TransformResponseAsWritten(registry: Registry, response: MistralResponse, modelName: Option<string>): (r: MistralResponse)
    ensures !(modelName.Some? && modelName.value != "" && registry.IsMistral(ToLower(modelName.value))) ==> r == response
    ensures r.id == response.id && r.objectType == response.objectType && r.model == response.model
      && r.created == response.created && |r.choices| == |response.choices|
    ensures modelName.Some? && modelName.value != "" && registry.IsMistral(ToLower(modelName.value)) ==>
      var u := response.usage;
      && r.usage.promptTokens == (if u.promptTokens.Some? && u.promptTokens.value != 0 then u.promptTokens else u.promptTokensCamel)
      && r.usage.completionTokens == (if u.completionTokens.Some? && u.completionTokens.value != 0 then u.completionTokens else u.completionTokensCamel)
      && r.usage.totalTokens == (if u.totalTokens.Some? && u.totalTokens.value != 0 then u.totalTokens else u.totalTokensCamel)
  {
    if modelName.Some? && modelName.value != "" && registry.IsMistral(ToLower(modelName.value)) then
      var u := response.usage;
      response.(choices := RelabelChoices(response.choices),
                usage := RawUsage(OrCount(u.promptTokens, u.promptTokensCamel), None,
                                  OrCount(u.completionTokens, u.completionTokensCamel), None,
                                  OrCount(u.totalTokens, u.totalTokensCamel), None))
    else response
  }

  /** A reported zero prompt count is lost as written: with no camelCase
      field beside it, it comes out missing. */
  lemma ZeroCountLostAsWritten(registry: Registry, response: MistralResponse, model: string)
    requires model != "" && registry.IsMistral(ToLower(model))
    requires response.usage.promptTokens == Some(0) && response.usage.promptTokensCamel.None?
    ensures TransformResponseAsWritten(registry, response, Some(model)).usage.promptTokens.None?
  {
  }

  /** `transformResponse` with the counts merged as evidently intended
      (`??`), so that a reported zero survives. */
  function TransformResponse(registry: Registry, response: MistralResponse, modelName: Option<string>): (r: MistralResponse)
    ensures r.id == response.id && r.model == response.model && r.created == response.created
    ensures |r.choices| == |response.choices|
  {
    if modelName.Some? && modelName.value != "" && registry.IsMistral(ToLower(modelName.value)) then
      var u := response.usage;
      response.(choices := RelabelChoices(response.choices),
                usage := RawUsage(CoalesceCount(u.promptTokens, u.promptTokensCamel), None,
                                  CoalesceCount(u.completionTokens, u.completionTokensCamel), None,
                                  CoalesceCount(u.totalTokens, u.totalTokensCamel), None))
    else response
  }

  /** Every snake_case count reported is kept as it is, zero included,
      and a camelCase count is used only where the snake_case one is
      missing; the relabelled choices keep index, role, content and finish
      reason, and every tool call gets a type. */
  lemma TransformResponseKeepsCounts(registry: Registry, response: MistralResponse, model: string)
    requires model != "" && registry.IsMistral(ToLower(model))
    ensures var r := TransformResponse(registry, response, Some(model));
      var u := response.usage;
      && r.usage.promptTokens == (if u.promptTokens.Some? then u.promptTokens else u.promptTokensCamel)
      && r.usage.completionTokens == (if u.completionTokens.Some? then u.completionTokens else u.completionTokensCamel)
      && r.usage.totalTokens == (if u.totalTokens.Some? then u.totalTokens else u.totalTokensCamel)
      && r.usage.promptTokensCamel.None? && r.usage.completionTokensCamel.None? && r.usage.totalTokensCamel.None?
      && forall i :: 0 <= i < |r.choices| ==>
           r.choices[i].index == response.choices[i].index && r.choices[i].role == response.choices[i].role
           && r.choices[i].content == response.choices[i].content
           && r.choices[i].finishReason == response.choices[i].finishReason
           && (r.choices[i].toolCalls.Some? <==> response.choices[i].toolCalls.Some?)
           && (r.choices[i].toolCalls.Some? ==>
                 forall k :: 0 <= k < |r.choices[i].toolCalls.value| ==>
                   r.choices[i].toolCalls.value[k].callType.Some?)
  {
  }

  /** The two forms differ only where a snake_case count of zero was
      reported: without one, the corrected relabelling gives what the
      source as written gives. */
  lemma AsWrittenAgreesWithoutZeros(registry: Registry, response: MistralResponse, modelName: Option<string>)
    requires response.usage.promptTokens != Some(0) && response.usage.completionTokens != Some(0)
    requires response.usage.totalTokens != Some(0)
    ensures TransformResponseAsWritten(registry, response, modelName) == TransformResponse(registry, response, modelName)
  {
  }

  /** The corrected relabelling is idempotent: a response it produced comes
      back unchanged. (As written it is not: see ZeroCountLostAsWritten.) */
  lemma TransformResponseIdempotent(registry: Registry, response: MistralResponse, model: string)
    requires model != "" && registry.IsMistral(ToLower(model))
    ensures var once := TransformResponse(registry, response, Some(model));
      TransformResponse(registry, once, Some(model)) == once
  {
    var once := TransformResponse(registry, response, Some(model));
    var twice := TransformResponse(registry, once, Some(model));
    forall i | 0 <= i < |once.choices| ensures twice.choices[i] == once.choices[i] {
      var c := once.choices[i];
      if c.toolCalls.Some? {
        var cs := c.toolCalls.value;
        var cs2 := twice.choices[i].toolCalls.value;
        forall k | 0 <= k < |cs| ensures cs2[k] == cs[k] {
        }
        assert cs2 == cs;
      }
    }
    assert twice.choices == once.choices;
  }

  // ----- transform_stream_chunk (Mistral) -----

  /** Tool-call deltas of a chunk: the index defaults to the position and a
      missing or empty type to "function". */
  function RelabelToolDeltas(calls: seq<ToolCall>): (r: seq<ToolCall>)
    ensures |r| == |calls|
    ensures forall i :: 0 <= i < |calls| ==>
      r[i].index == Some(calls[i].index.GetOr(i)) && r[i].id == calls[i].id
      && r[i].name == calls[i].name && r[i].arguments == calls[i].arguments
      && r[i].callType == (if calls[i].callType.Some? && calls[i].callType.value != "" then calls[i].callType else Some("function"))
  {
    seq(|calls|, i requires 0 <= i < |calls| =>
      ToolCall(Some(calls[i].index.GetOr(i)), calls[i].id,
               Some(if calls[i].callType.Some? && calls[i].callType.value != "" then calls[i].callType.value else "function"),
               calls[i].name, calls[i].arguments))
  }

  /** `transform_stream_chunk`: `None` for a missing chunk; otherwise the
      first choice relabelled into the canonical chunk shape. The clock
      reading `now` stands in for `Date.now()` (milliseconds); a missing
      or zero `created` falls back to it in whole seconds, a missing or
      empty `model` to the model name. */
  function TransformStreamChunk(chunk: Option<RawChunk>, modelName: string, now: int): (r: Option<OpenAIChunk>)
    ensures r.None? <==> chunk.None?
    ensures r.Some? ==> |r.value.choices| == 1 && r.value.id == chunk.value.id && r.value.objectType == ChunkObject
    ensures r.Some? ==>
      r.value.created == (if chunk.value.created.Some? && chunk.value.created.value != 0 then chunk.value.created.value else now / 1000)
    ensures r.Some? ==>
      r.value.model == (if chunk.value.model.Some? && chunk.value.model.value != "" then chunk.value.model.value else modelName)
    ensures r.Some? ==> var cs := chunk.value.choices; var d := r.value.choices[0].delta;
      if cs.Some? && |cs.value| > 0 then
        var raw := cs.value[0].delta;
        && d.role == raw.role && d.content == raw.content
        && d.toolCalls == (if raw.toolCalls.Some? && |raw.toolCalls.value| > 0 then Some(RelabelToolDeltas(raw.toolCalls.value)) else None)
        && r.value.choices[0].index == cs.value[0].index.GetOr(0)
      else
        d == ChunkDelta(None, Nullable.Absent, None) && r.value.choices[0].finishReason.None? && r.value.choices[0].index == 0
  {
    if chunk.None? then None
    else
      var c := chunk.value;
      var hasChoice := c.choices.Some? && |c.choices.value| > 0;
      var delta :=
        if hasChoice then
          var d := c.choices.value[0].delta;
          ChunkDelta(d.role, d.content,
                     if d.toolCalls.Some? && |d.toolCalls.value| > 0 then Some(RelabelToolDeltas(d.toolCalls.value)) else None)
        else ChunkDelta(None, Nullable.Absent, None);
      var finish :=
        if hasChoice && c.choices.value[0].finishReason.Some? && c.choices.value[0].finishReason.value != "" then
          c.choices.value[0].finishReason
        else None;
      var index := if hasChoice && c.choices.value[0].index.Some? then c.choices.value[0].index.value else 0;
      var logprobs := if hasChoice then c.choices.value[0].logprobs else Some(JNull);
      Some(OpenAIChunk(
        c.id, ChunkObject,
        if c.created.Some? && c.created.value != 0 then c.created.value else now / 1000,
        if c.model.Some? && c.model.value != "" then c.model.value else modelName,
        if c.systemFingerprint.Some? && c.systemFingerprint.value != "" then c.systemFingerprint else None,
        [ChunkChoice(index, delta, logprobs, finish)]))
  }

  /** A canonical chunk seen as a raw chunk. */
  function AsRawChunk(c: OpenAIChunk): RawChunk
    requires |c.choices| == 1
  {
    var ch := c.choices[0];
    RawChunk(c.id, Some(c.created), Some(c.model),
             Some([RawStreamChoice(Some(ch.index), RawDelta(ch.delta.role, ch.delta.content, ch.delta.toolCalls),
                                   ch.finishReason, ch.logprobs)]),
             c.systemFingerprint)
  }

  /** A chunk already in canonical form, with every defaulted field filled
      with a value the relabelling keeps. */
  predicate CanonicalChunk(c: OpenAIChunk) {
    && c.objectType == ChunkObject
    && |c.choices| == 1
    && c.created != 0 && c.model != ""
    && c.systemFingerprint != Some("")
    && c.choices[0].finishReason != Some("")
    && (c.choices[0].delta.toolCalls.Some? ==>
          |c.choices[0].delta.toolCalls.value| > 0
          && forall i :: 0 <= i < |c.choices[0].delta.toolCalls.value| ==>
               c.choices[0].delta.toolCalls.value[i].index.Some?
               && c.choices[0].delta.toolCalls.value[i].callType.Some?
               && c.choices[0].delta.toolCalls.value[i].callType.value != "")
  }

  /** Partner: a chunk that is already canonical passes through the
      relabelling unchanged, whatever the model name and clock. */
  lemma CanonicalChunkUnchanged(c: OpenAIChunk, modelName: string, now: int)
    requires CanonicalChunk(c)
    ensures TransformStreamChunk(Some(AsRawChunk(c)), modelName, now) == Some(c)
  {
    var d := c.choices[0].delta;
    var raw := AsRawChunk(c);
    var out := TransformStreamChunk(Some(raw), modelName, now).value;
    if d.toolCalls.Some? {
      var r := RelabelToolDeltas(d.toolCalls.value);
      forall i | 0 <= i < |r| ensures r[i] == d.toolCalls.value[i] {
      }
      assert r == d.toolCalls.value;
    }
    assert out.choices[0].delta == d;
    assert out.choices[0] == c.choices[0];
    assert out.choices == c.choices;
  }
}
