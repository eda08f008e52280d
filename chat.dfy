/** `ChatHelper`: builds the request for the model's provider family
    (`get_response`) and normalises a non-streaming response
    (`handle_response`). The provider clients are not modelled:
    `GetResponse` returns the request it would send. */
module Chat {
  import opened Values
  import opened Types
  import opened Blocks
  import opened Conversation
  import opened ResponseNormalizer
  import opened StreamEngine

  /** `cached: boolean | string`: a flag, or the label of the system prompt
      part to cache. */
  datatype Cached = CacheFlag(on: bool) | CacheLabel(prompt: string)

  /** `system`: a plain string, or an array of text block objects. */
  datatype SystemParam = SystemString(s: string) | SystemArray(blocks: seq<Json>)

  /** `ClaudeRequest`; `tools` is absent when no tool was supplied. */
  datatype ClaudeRequest = ClaudeRequest(
    model: string, maxTokens: int, temperature: real, stream: bool,
    tools: Option<seq<InputTool>>, system: SystemParam, messages: seq<Message>)

  /** What `get_response` hands to the provider client. */
  datatype Request =
    | AnthropicCall(params: ClaudeRequest)
    | MistralCall(model: string, temperature: real, messages: seq<Message>, stream: bool)
    | CompatibleCall(model: string, messages: seq<Message>, temperature: real, stream: bool)

  datatype Result<T> = Ok(value: T) | Err(message: string)

  /** Which branch of `get_response` a model name takes. */
  datatype Family = MistralFamily | AnthropicFamily | CompatibleFamily | UnsupportedFamily

  function FamilyOf(registry: Registry, model: string): (f: Family)
    ensures f == MistralFamily <==> model in registry.mistral
    ensures f == AnthropicFamily <==> model !in registry.mistral && model in registry.anthropic
    ensures f == CompatibleFamily <==>
      model !in registry.mistral && model !in registry.anthropic
      && (model in registry.grok || model in registry.openai || model in registry.gemini || model in registry.deepseek)
  {
    if registry.IsMistral(model) then MistralFamily
    else if registry.IsAnthropic(model) then AnthropicFamily
    else if model in registry.grok || model in registry.openai || model in registry.gemini || model in registry.deepseek then CompatibleFamily
    else UnsupportedFamily
  }

  /** A model listed only among the Alibaba models has no branch in
      `get_response` and is reported as not supported. */
  lemma AlibabaOnlyUnsupported(registry: Registry, model: string)
    requires model in registry.alibaba
    requires model !in registry.mistral && model !in registry.anthropic && model !in registry.grok
    requires model !in registry.openai && model !in registry.gemini && model !in registry.deepseek
    ensures FamilyOf(registry, model) == UnsupportedFamily
  {
  }

  /** The block-oriented provider accepts temperatures up to 1. */
  function ClampTemperature(t: real): (r: real)
    ensures r <= 1.0
    ensures t <= 1.0 ==> r == t
    ensures t > 1.0 ==> r == 1.0
  {
    if t > 1.0 then 1.0 else t
  }

  /** The tools with a cache hint on the last one. */
  function HintLastTool(tools: seq<InputTool>): (r: seq<InputTool>)
    requires |tools| > 0
    ensures |r| == |tools|
    ensures r[|r| - 1] == tools[|tools| - 1].(cacheHint := true)
    ensures r[..|r| - 1] == tools[..|tools| - 1]
  {
    tools[|tools| - 1 := tools[|tools| - 1].(cacheHint := true)]
  }

  function TextObject(text: Json): Json {
    JObject(map["type" := JString("text"), "text" := text])
  }

  /** The text of the cached system part: the label, or `true` itself when
      `cached` is the flag `true` (`this.cached as string` converts
      nothing). */
  function CachedText(cached: Cached): Json {
    match cached
    case CacheFlag(b) => JBool(b)
    case CacheLabel(prompt) => JString(prompt)
  }

  /** The `system` parameter: the plain role text when `cached` is `false`,
      else the role text followed by the cached part with a cache hint. */
  function SystemFor(role: string, cached: Cached): (r: SystemParam)
    ensures r.SystemString? <==> cached == CacheFlag(false)
    ensures r.SystemString? ==> r.s == role
    ensures r.SystemArray? ==>
      && |r.blocks| == 2 && r.blocks[0] == TextObject(JString(role))
      && r.blocks[1].JObject? && "cache_control" in r.blocks[1].fields && "text" in r.blocks[1].fields
      && r.blocks[1].fields["cache_control"] == Ephemeral && r.blocks[1].fields["text"] == CachedText(cached)
  {
    if cached == CacheFlag(false) then SystemString(role)
    else
      var hinted := map["type" := JString("text"), "text" := CachedText(cached), "cache_control" := Ephemeral];
      SystemArray([TextObject(JString(role)), JObject(hinted)])
  }

  /** The request of the Anthropic branch, from the helper's fields as they
      were on entry. */
  function AnthropicParams(
    registry: Registry, codec: JsonCodec, model: string, temperature: real, tools: seq<InputTool>,
    stream: bool, cached: Cached, role: string, messages: seq<Message>): ClaudeRequest
  {
    ClaudeRequest(model, GetMaxTokens(registry, model), ClampTemperature(temperature), stream,
                  if |tools| > 0 then Some(HintLastTool(tools)) else None,
                  SystemFor(role, cached),
                  CachedMessages(TransformedMessages(codec, messages)))
  }

  /** What the Anthropic request promises the provider: a temperature of at
      most 1, the model's length limit, the tools only when some were given
      and then only the last one hinted, one message per input message with
      no tool role and no string content. */
  lemma AnthropicRequestFacts(
    registry: Registry, codec: JsonCodec, model: string, temperature: real, tools: seq<InputTool>,
    stream: bool, cached: Cached, role: string, messages: seq<Message>)
    ensures var p := AnthropicParams(registry, codec, model, temperature, tools, stream, cached, role, messages);
      && p.temperature <= 1.0 && p.maxTokens == GetMaxTokens(registry, model)
      && (p.tools.Some? <==> |tools| > 0)
      && (p.tools.Some? ==>
            (|p.tools.value| == |tools| && p.tools.value[|tools| - 1].cacheHint
             && forall k :: 0 <= k < |tools| - 1 ==> p.tools.value[k] == tools[k]))
      && |p.messages| == |messages|
      && forall i :: 0 <= i < |messages| ==>
           p.messages[i].role != Tool && !p.messages[i].content.Str?
           && p.messages[i].role == (if messages[i].role == Tool then User else messages[i].role)
  {
    var p := AnthropicParams(registry, codec, model, temperature, tools, stream, cached, role, messages);
    var t := TransformedMessages(codec, messages);
    if |tools| > 0 {
      var h := HintLastTool(tools);
      forall k | 0 <= k < |tools| - 1 ensures h[k] == tools[k] {
        assert h[k] == h[..|h| - 1][k];
      }
    }
    forall i | 0 <= i < |messages|
      ensures p.messages[i].role != Tool && !p.messages[i].content.Str?
      ensures p.messages[i].role == (if messages[i].role == Tool then User else messages[i].role)
    {
      TransformMessageShape(codec, messages[i]);
      CachedMessagesShape(t, i);
    }
  }

  /** A response as the provider's client returns it. */
  datatype ProviderResponse =
    | FromClaude(claude: ClaudeResponse)
    | FromMistral(mistral: MistralResponse)
    | FromOther(json: Json)

  /** What `handle_response` returns. */
  datatype Handled =
    | Converted(gpt: GPTResponse)
    | Relabelled(relabelled: MistralResponse)
    | Unchanged(response: ProviderResponse)

  class ChatHelper {
    const apiHelper: ApiHelper
    const modelName: string
    const messages: seq<Message>
    var temperature: real
    var tools: seq<InputTool>
    const stream: bool
    const cached: Cached
    const role: string

    constructor(apiHelper: ApiHelper, modelName: string, messages: seq<Message>, temperature: real,
                tools: seq<InputTool>, stream: bool, cached: Cached, role: string)
      ensures this.apiHelper == apiHelper && this.modelName == modelName && this.messages == messages
      ensures this.temperature == temperature && this.tools == tools && this.stream == stream
      ensures this.cached == cached && this.role == role
    {
      this.apiHelper := apiHelper;
      this.modelName := modelName;
      this.messages := messages;
      this.temperature := temperature;
      this.tools := tools;
      this.stream := stream;
      this.cached := cached;
      this.role := role;
    }

    /** `get_response`: the request for the model's family, or the
        not-supported error as the `catch` rewraps it. The Anthropic branch
        clamps the stored temperature and stores the tools with the last
        one hinted. */
    method GetResponse() returns (r: Result<Request>)
      modifies this
      ensures var family := FamilyOf(apiHelper.registry, modelName);
        && (family == AnthropicFamily ==>
              && r == Ok(AnthropicCall(AnthropicParams(apiHelper.registry, apiHelper.codec, modelName,
                                                       old(temperature), old(tools), stream, cached, role, messages)))
              && temperature == ClampTemperature(old(temperature))
              && tools == (if |old(tools)| > 0 then HintLastTool(old(tools)) else old(tools)))
        && (family != AnthropicFamily ==> temperature == old(temperature) && tools == old(tools))
        && (family == MistralFamily ==> r == Ok(MistralCall(modelName, temperature, messages, stream)))
        && (family == CompatibleFamily ==> r == Ok(CompatibleCall(modelName, messages, temperature, stream)))
        && (family == UnsupportedFamily ==> r == Err("An unexpected error occurred: Model " + modelName + " is currently not supported"))
    {
      var family := FamilyOf(apiHelper.registry, modelName);
      if family == MistralFamily {
        r := Ok(MistralCall(modelName, temperature, messages, stream));
      } else if family == AnthropicFamily {
        temperature := if temperature > 1.0 then 1.0 else temperature;
        var anthropicMessages := TransformMessages(apiHelper.codec, messages);
        assert anthropicMessages == TransformedMessages(apiHelper.codec, messages);
        var maxTokens := GetMaxTokens(apiHelper.registry, modelName);
        var toolsParam := None;
        if |tools| > 0 {
          tools := tools[|tools| - 1 := tools[|tools| - 1].(cacheHint := true)];
          toolsParam := Some(tools);
        }
        var system;
        if cached == CacheFlag(false) {
          system := SystemString(role);
        } else {
          system := SystemArray([TextObject(JString(role)),
                                 JObject(map["type" := JString("text"), "text" := CachedText(cached), "cache_control" := Ephemeral])]);
        }
        var cachedMessages := CacheMessages(anthropicMessages);
        r := Ok(AnthropicCall(ClaudeRequest(modelName, maxTokens, temperature, stream, toolsParam, system, cachedMessages)));
      } else if family == CompatibleFamily {
        r := Ok(CompatibleCall(modelName, messages, temperature, stream));
      } else {
        // The not-supported error is thrown inside the `try`, so the `catch`
        // rethrows it with its generic prefix.
        r := Err("An unexpected error occurred: Model " + modelName + " is currently not supported");
      }
    }

    /** `handle_response` as written: `transformResponse` is called without
        the model name, so its guard fails and a Mistral response is
        returned as it came. */
    function HandleResponseAsWritten(response: ProviderResponse, now: int): (r: Handled)
      requires apiHelper.registry.IsAnthropic(modelName) ==> response.FromClaude?
      requires !apiHelper.registry.IsAnthropic(modelName) && apiHelper.registry.IsMistral(modelName) ==> response.FromMistral?
      ensures apiHelper.registry.IsAnthropic(modelName) ==>
        r == Converted(ConvertClaudeToGPT(apiHelper.codec, response.claude, now))
      ensures !apiHelper.registry.IsAnthropic(modelName) && !apiHelper.registry.IsMistral(modelName) ==> r == Unchanged(response)
    {
      if apiHelper.registry.IsAnthropic(modelName) then
        Converted(ConvertClaudeToGPT(apiHelper.codec, response.claude, now))
      else if apiHelper.registry.IsMistral(modelName) then
        Relabelled(TransformResponseAsWritten(apiHelper.registry, response.mistral, None))
      else Unchanged(response)
    }

    /** `handle_response` with the model name passed on, as
        `transformResponse`'s signature asks. */
    function HandleResponse(response: ProviderResponse, now: int): (r: Handled)
      requires apiHelper.registry.IsAnthropic(modelName) ==> response.FromClaude?
      requires !apiHelper.registry.IsAnthropic(modelName) && apiHelper.registry.IsMistral(modelName) ==> response.FromMistral?
      ensures apiHelper.registry.IsAnthropic(modelName) ==>
        r == Converted(ConvertClaudeToGPT(apiHelper.codec, response.claude, now))
        && |r.gpt.choices| == 1 && r.gpt.id == response.claude.id
        && r.gpt.choices[0].finishReason == FinishReason(response.claude.stopReason)
      ensures !apiHelper.registry.IsAnthropic(modelName) && apiHelper.registry.IsMistral(modelName) ==>
        r.Relabelled? && r.relabelled.id == response.mistral.id
        && |r.relabelled.choices| == |response.mistral.choices|
      ensures !apiHelper.registry.IsAnthropic(modelName) && !apiHelper.registry.IsMistral(modelName) ==> r == Unchanged(response)
    {
      if apiHelper.registry.IsAnthropic(modelName) then
        Converted(ConvertClaudeToGPT(apiHelper.codec, response.claude, now))
      else if apiHelper.registry.IsMistral(modelName) then
        Relabelled(TransformResponse(apiHelper.registry, response.mistral, Some(modelName)))
      else Unchanged(response)
    }
  }

  /** As written, a Mistral response comes back exactly as the client
      returned it: no tool call gets its type, no usage field is renamed. */
  lemma MistralUntouchedAsWritten(h: ChatHelper, response: MistralResponse, now: int)
    requires !h.apiHelper.registry.IsAnthropic(h.modelName) && h.apiHelper.registry.IsMistral(h.modelName)
    ensures h.HandleResponseAsWritten(FromMistral(response), now) == Relabelled(response)
  {
  }

  /** With the model name passed on, a Mistral response whose usage comes
      only in camelCase gets it under the snake_case names, and every tool
      call gets a type. */
  lemma MistralRelabelled(h: ChatHelper, response: MistralResponse, now: int)
    requires !h.apiHelper.registry.IsAnthropic(h.modelName) && h.apiHelper.registry.IsMistral(h.modelName)
    requires h.modelName != "" && h.apiHelper.registry.IsMistral(ToLower(h.modelName))
    ensures var r := h.HandleResponse(FromMistral(response), now).relabelled;
      var u := response.usage;
      && (u.promptTokens.None? ==> r.usage.promptTokens == u.promptTokensCamel)
      && (u.completionTokens.None? ==> r.usage.completionTokens == u.completionTokensCamel)
      && (u.totalTokens.None? ==> r.usage.totalTokens == u.totalTokensCamel)
      && forall i :: 0 <= i < |r.choices| ==> r.choices[i].toolCalls.Some? ==>
           forall k :: 0 <= k < |r.choices[i].toolCalls.value| ==> r.choices[i].toolCalls.value[k].callType.Some?
  {
    TransformResponseKeepsCounts(h.apiHelper.registry, response, h.modelName);
  }
}
