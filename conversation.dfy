/** The conversation transformer of `ApiHelper`: system-prompt handling in
    `set_defaults`, the rewrite of OpenAI-style tool calls and tool
    messages into content blocks (`transformToolCalls`,
    `transformMessages`) and the prompt-cache pass (`cacheMessages`). */
module Conversation {
  import opened Values
  import opened Types
  import opened Blocks

  // ----- set_defaults: system prompt -----

  /** What `set_defaults` returns besides the client: the conversation to
      send and the extracted system prompt (called `role` in the source). */
  datatype Defaults = Defaults(conversation: seq<Message>, role: string)

  /** The system prompt an Anthropic-family model receives from a leading
      system message: its string content, or the text of its first block
      when that is a text block, or nothing. */
  function SystemText(c: Content): string {
    match c
    case Str(s) => s
    case Blocks(bs) => if |bs| > 0 && bs[0].Text? then bs[0].text else ""
    case _ => ""
  }

  function ObjectStrings(n: nat): (r: seq<string>)
    ensures |r| == n && forall i :: 0 <= i < n ==> r[i] == "[object Object]"
  {
    if n == 0 then [] else ObjectStrings(n - 1) + ["[object Object]"]
  }

  /** How a template literal `${content}` renders message content: a
      string as itself, `null` and `undefined` by name, an array of block
      objects as "[object Object]" per block, comma-separated. */
  function Rendered(c: Content): string {
    match c
    case Str(s) => s
    case Null => "null"
    case Absent => "undefined"
    case Blocks(bs) => Join(ObjectStrings(|bs|), ",")
  }

  /** The per-model table choosing, for reasoning-only models, between
      merging the system text into the next message and relabelling it.
      As written, the source tests the misspelled name "o1-prewiew". */
  predicate MergesSystemPromptAsWritten(model: string) {
    model == "o1-mini" || model == "o1-prewiew"
  }

  /** The table as evidently intended: "o1-mini" and "o1-preview". */
  predicate MergesSystemPrompt(model: string) {
    model == "o1-mini" || model == "o1-preview"
  }

  /** `set_defaults` without the client lookup, for a given merge table
      (`MergesSystemPromptAsWritten` is the source as written,
      `MergesSystemPrompt` the corrected one). Anthropic models: a leading
      system message is removed and its text returned. "o1"/"o3" models:
      the system text is merged into the next message, or the system
      message is relabelled `developer`. Every other model, and every
      conversation without a leading system message, is left alone. */
  function SetDefaults(merges: string -> bool, registry: Registry, model: string, conv: seq<Message>): (r: Defaults)
    ensures |r.conversation| <= |conv|
    ensures r.role != "" ==> registry.IsAnthropic(model)
    ensures !registry.IsAnthropic(model) && !("o1" <= model || "o3" <= model) ==> r == Defaults(conv, "")
    ensures (|conv| == 0 || conv[0].role != System) ==> r == Defaults(conv, "")
  {
    if registry.IsAnthropic(model) then
      if |conv| > 0 && conv[0].role == System then Defaults(conv[1..], SystemText(conv[0].content))
      else Defaults(conv, "")
    else if "o1" <= model || "o3" <= model then
      if |conv| > 0 && conv[0].role == System then
        if merges(model) then
          var merged :=
            if |conv| > 1 then conv[1 := conv[1].(content := Str(Rendered(conv[0].content) + "\n\n" + Rendered(conv[1].content)))]
            else conv;
          Defaults(merged[1..], "")
        else
          Defaults(conv[0 := conv[0].(role := Developer, content := Str("Formatting re-enabled\n" + Rendered(conv[0].content)))], "")
      else Defaults(conv, "")
    else Defaults(conv, "")
  }

  /** For an Anthropic-family model the leading system message, and only
      it, is taken out: its text becomes the prompt and the rest of the
      conversation is kept as it was; without one nothing changes. */
  lemma AnthropicSystemPrompt(merges: string -> bool, registry: Registry, model: string, conv: seq<Message>)
    requires registry.IsAnthropic(model)
    ensures var r := SetDefaults(merges, registry, model, conv);
      if |conv| > 0 && conv[0].role == System then
        r.conversation == conv[1..] && r.role == SystemText(conv[0].content)
      else
        r.conversation == conv && r.role == ""
  {
  }

  /** For a merging reasoning model with a leading system message, the
      system message is dropped and the new first message starts with the
      system text and a blank line; all later messages are unchanged. */
  lemma MergedSystemPrompt(merges: string -> bool, registry: Registry, model: string, conv: seq<Message>)
    requires !registry.IsAnthropic(model) && ("o1" <= model || "o3" <= model) && merges(model)
    requires |conv| > 1 && conv[0].role == System
    ensures var r := SetDefaults(merges, registry, model, conv);
      && |r.conversation| == |conv| - 1 && r.role == ""
      && r.conversation[0].role == conv[1].role
      && r.conversation[0].content == Str(Rendered(conv[0].content) + "\n\n" + Rendered(conv[1].content))
      && r.conversation[1..] == conv[2..]
  {
    var r := SetDefaults(merges, registry, model, conv);
    assert r.conversation[1..] == conv[2..];
  }

  /** A merging reasoning model given only a system message sends an
      empty conversation. */
  lemma MergedLoneSystemPrompt(merges: string -> bool, registry: Registry, model: string, conv: seq<Message>)
    requires !registry.IsAnthropic(model) && ("o1" <= model || "o3" <= model) && merges(model)
    requires |conv| == 1 && conv[0].role == System
    ensures SetDefaults(merges, registry, model, conv) == Defaults([], "")
  {
  }

  /** For any other "o1"/"o3" model with a leading system message, that
      message becomes a `developer` message prefixed with the formatting
      marker; the length and every later message are unchanged. */
  lemma RelabelledSystemPrompt(merges: string -> bool, registry: Registry, model: string, conv: seq<Message>)
    requires !registry.IsAnthropic(model) && !merges(model)
    requires "o1" <= model || "o3" <= model
    requires |conv| > 0 && conv[0].role == System
    ensures var r := SetDefaults(merges, registry, model, conv);
      && |r.conversation| == |conv| && r.role == ""
      && r.conversation[0].role == Developer
      && r.conversation[0].content == Str("Formatting re-enabled\n" + Rendered(conv[0].content))
      && r.conversation[1..] == conv[1..]
  {
  }

  /** As written, "o1-preview" with a leading system message is relabelled
      `developer` and keeps every message, while the misspelled
      "o1-prewiew" is the one whose system text is merged away. */
  lemma PreviewRelabelledAsWritten(registry: Registry, conv: seq<Message>)
    requires !registry.IsAnthropic("o1-preview") && !registry.IsAnthropic("o1-prewiew")
    requires |conv| > 1 && conv[0].role == System
    ensures var r := SetDefaults(MergesSystemPromptAsWritten, registry, "o1-preview", conv);
      |r.conversation| == |conv| && r.conversation[0].role == Developer
    ensures |SetDefaults(MergesSystemPromptAsWritten, registry, "o1-prewiew", conv).conversation| == |conv| - 1
  {
    RelabelledSystemPrompt(MergesSystemPromptAsWritten, registry, "o1-preview", conv);
    MergedSystemPrompt(MergesSystemPromptAsWritten, registry, "o1-prewiew", conv);
  }

  /** With the corrected table, "o1-preview" merges its system text into
      the next message exactly as "o1-mini" does. */
  lemma PreviewMergedCorrected(registry: Registry, conv: seq<Message>)
    requires !registry.IsAnthropic("o1-preview") && !registry.IsAnthropic("o1-mini")
    requires |conv| > 1 && conv[0].role == System
    ensures var r := SetDefaults(MergesSystemPrompt, registry, "o1-preview", conv);
      && |r.conversation| == |conv| - 1
      && r.conversation[0].content == Str(Rendered(conv[0].content) + "\n\n" + Rendered(conv[1].content))
    ensures SetDefaults(MergesSystemPrompt, registry, "o1-preview", conv).conversation
         == SetDefaults(MergesSystemPrompt, registry, "o1-mini", conv).conversation
  {
    MergedSystemPrompt(MergesSystemPrompt, registry, "o1-preview", conv);
  }

  // ----- transformToolCalls / transformMessages -----

  /** The `input` used when a tool call's arguments are not valid JSON. */
  function RawArgs(arguments: string): Json {
    JObject(map["__raw_args__" := JString(arguments)])
  }

  /** One element of `transformToolCalls`. */
  function ToolCallToBlock(codec: JsonCodec, call: ToolCall): (b: Block)
    ensures b.ToolUse? && b.id == call.id && b.name == call.name && !b.cached
    ensures b.input == match codec.parse(call.arguments)
                       case Some(j) => j
                       case None => RawArgs(call.arguments)
  {
    var input := match codec.parse(call.arguments)
                 case Some(j) => j
                 case None => RawArgs(call.arguments);
    ToolUse(call.id, call.name, input, false)
  }

  /** `transformToolCalls`: one tool-use block per call, in order. */
  function TransformToolCalls(codec: JsonCodec, calls: seq<ToolCall>): (r: seq<Block>)
    ensures |r| == |calls|
    ensures forall i :: 0 <= i < |calls| ==> r[i] == ToolCallToBlock(codec, calls[i])
  {
    seq(|calls|, i requires 0 <= i < |calls| => ToolCallToBlock(codec, calls[i]))
  }

  /** The JSON form of message content that is not a string, as
      `JSON.stringify` sees it; `None` for `undefined`. */
  function ContentJson(c: Content): Option<Json> {
    match c
    case Absent => None
    case Null => Some(JNull)
    case Str(s) => Some(JString(s))
    case Blocks(bs) => Some(JArray(seq(|bs|, i requires 0 <= i < |bs| => BlockJson(bs[i]))))
  }

  /** The tool-result content: a string as is, anything else stringified
      (`JSON.stringify(undefined)` is `undefined`). */
  function ToolResultContent(codec: JsonCodec, c: Content): Option<string> {
    if c.Str? then Some(c.s)
    else match ContentJson(c)
         case Some(j) => Some(codec.stringify(j))
         case None => None
  }

  /** One iteration of the `transformMessages` loop. A tool message
      without `tool_call_id` gives a tool result whose id is missing (the
      empty string here). */
  function TransformMessage(codec: JsonCodec, m: Message): (r: Message)
  {
    if m.role == Assistant && m.toolCalls.Some? && |m.toolCalls.value| > 0 then
      m.(content := Blocks(TransformToolCalls(codec, m.toolCalls.value)), toolCalls := None)
    else if m.role == Tool then
      Message(User, Blocks([ToolResult(m.toolCallId.GetOr(""), ToolResultContent(codec, m.content), None, false)]), None, None)
    else if m.content.Str? then
      m.(content := Blocks([Text(m.content.s, false)]))
    else m
  }

  /** What every rewritten message looks like: no tool role, no string
      content, no assistant message with pending tool calls, and the role
      kept except that a tool message becomes a user message. */
  lemma TransformMessageShape(codec: JsonCodec, m: Message)
    ensures var r := TransformMessage(codec, m);
      && r.role != Tool
      && !r.content.Str?
      && !(r.role == Assistant && r.toolCalls.Some? && |r.toolCalls.value| > 0)
      && r.role == (if m.role == Tool then User else m.role)
  {
  }

  /** An assistant message with tool calls becomes one tool-use block per
      call, in order, keeping id and name; a tool message becomes a user
      message with a single tool result for `tool_call_id`; string content
      becomes one text block; anything else is unchanged. */
  lemma TransformMessageCases(codec: JsonCodec, m: Message)
    ensures var r := TransformMessage(codec, m);
      && (m.role == Assistant && m.toolCalls.Some? && |m.toolCalls.value| > 0 ==>
            r.toolCalls.None? && r.content.Blocks? && |r.content.blocks| == |m.toolCalls.value|
            && forall i :: 0 <= i < |m.toolCalls.value| ==>
                 r.content.blocks[i].ToolUse? && r.content.blocks[i].id == m.toolCalls.value[i].id
                 && r.content.blocks[i].name == m.toolCalls.value[i].name)
      && (m.role == Tool ==>
            r.role == User && r.content.Blocks? && |r.content.blocks| == 1
            && r.content.blocks[0].ToolResult? && r.content.blocks[0].toolUseId == m.toolCallId.GetOr(""))
      && (m.role != Tool && !(m.role == Assistant && m.toolCalls.Some? && |m.toolCalls.value| > 0) ==>
            r.content == (if m.content.Str? then Blocks([Text(m.content.s, false)]) else m.content)
            && r.role == m.role && r.toolCalls == m.toolCalls && r.toolCallId == m.toolCallId)
  {
  }

  /** `transformMessages` as a function: one output per input, in order. */
  function TransformedMessages(codec: JsonCodec, ms: seq<Message>): (r: seq<Message>)
    ensures |r| == |ms|
  {
    seq(|ms|, i requires 0 <= i < |ms| => TransformMessage(codec, ms[i]))
  }

  /** `transformMessages`: the loop that pushes one rewritten message per
      input message. */
  method TransformMessages(codec: JsonCodec, messages: seq<Message>) returns (out: seq<Message>)
    ensures |out| == |messages|
    ensures forall i :: 0 <= i < |messages| ==> out[i] == TransformMessage(codec, messages[i])
  {
    out := [];
    var i := 0;
    while i < |messages|
      invariant 0 <= i <= |messages|
      invariant |out| == i
      invariant forall k :: 0 <= k < i ==> out[k] == TransformMessage(codec, messages[k])
    {
      var message := messages[i];
      if message.role == Assistant && message.toolCalls.Some? && |message.toolCalls.value| > 0 {
        message := message.(content := Blocks(TransformToolCalls(codec, message.toolCalls.value)), toolCalls := None);
        out := out + [message];
      } else if message.role == Tool {
        var toolMessage := Message(User, Blocks([ToolResult(message.toolCallId.GetOr(""), ToolResultContent(codec, message.content), None, false)]), None, None);
        out := out + [toolMessage];
      } else {
        if message.content.Str? {
          message := message.(content := Blocks([Text(message.content.s, false)]));
        }
        out := out + [message];
      }
      i := i + 1;
    }
  }

  // ----- cacheMessages -----

  /** The number of user messages in `ms`. */
  function CountUsers(ms: seq<Message>): nat {
    if |ms| == 0 then 0 else (if ms[0].role == User then 1 else 0) + CountUsers(ms[1..])
  }

  lemma {:induction false} CountUsersAppend(a: seq<Message>, b: seq<Message>)
    ensures CountUsers(a + b) == CountUsers(a) + CountUsers(b)
  {
    if |a| == 0 {
      assert a + b == b;
    } else {
      assert (a + b)[1..] == a[1..] + b;
      CountUsersAppend(a[1..], b);
    }
  }

  /** A message that receives a cache hint: a user message followed by
      fewer than two user messages, i.e. one of the two most recent. */
  predicate Hinted(ms: seq<Message>, i: int)
    requires 0 <= i < |ms|
  {
    ms[i].role == User && CountUsers(ms[i + 1..]) < 2
  }

  /** The message with a cache hint on every block; string content becomes
      one hinted text block; other content is left as it is. */
  function AddCacheHint(m: Message): (r: Message)
    ensures r.role == m.role && r.toolCalls == m.toolCalls && r.toolCallId == m.toolCallId
    ensures m.content.Str? ==> r.content == Blocks([Text(m.content.s, true)])
    ensures m.content.Blocks? ==>
      (r.content.Blocks? && |r.content.blocks| == |m.content.blocks|
       && forall k :: 0 <= k < |m.content.blocks| ==>
            r.content.blocks[k].cached && r.content.blocks[k] == m.content.blocks[k].(cached := true))
    ensures !m.content.Str? && !m.content.Blocks? ==> r == m
  {
    match m.content
    case Str(s) => m.(content := Blocks([Text(s, true)]))
    case Blocks(bs) => m.(content := Blocks(seq(|bs|, k requires 0 <= k < |bs| => bs[k].(cached := true))))
    case _ => m
  }

  /** `cacheMessages` as a function of its input. */
  function CachedMessages(ms: seq<Message>): (r: seq<Message>)
    ensures |r| == |ms|
  {
    seq(|ms|, i requires 0 <= i < |ms| => if Hinted(ms, i) then AddCacheHint(ms[i]) else ms[i])
  }

  /** `cacheMessages`: walks the conversation from the most recent message
      back, giving the first two user messages met a cache hint. Prepending
      here is the source's push-then-reverse. */
  method CacheMessages(messages: seq<Message>) returns (out: seq<Message>)
    ensures out == CachedMessages(messages)
  {
    out := [];
    var userMessages := 0;
    var i := |messages|;
    while i > 0
      invariant 0 <= i <= |messages|
      invariant userMessages == if CountUsers(messages[i..]) < 2 then CountUsers(messages[i..]) else 2
      invariant out == CachedMessages(messages)[i..]
    {
      i := i - 1;
      var message := messages[i];
      assert messages[i..][1..] == messages[i + 1..];
      if message.role == User && userMessages < 2 {
        message := AddCacheHint(message);
        userMessages := userMessages + 1;
      }
      out := [message] + out;
    }
  }

  /** Roles, order and length are kept; every message that is not hinted
      is returned unchanged and every hinted one carries the hint on all
      of its blocks. */
  lemma CachedMessagesShape(ms: seq<Message>, i: int)
    requires 0 <= i < |ms|
    ensures var r := CachedMessages(ms);
      && r[i].role == ms[i].role
      && (!Hinted(ms, i) ==> r[i] == ms[i])
      && (Hinted(ms, i) && (ms[i].content.Str? || ms[i].content.Blocks?) ==>
            r[i].content.Blocks? && forall k :: 0 <= k < |r[i].content.blocks| ==> r[i].content.blocks[k].cached)
  {
  }

  /** A user message at `j` after `i` leaves at least one more user
      message after `i` than after `j`. */
  lemma {:induction false} UsersAfterGrow(ms: seq<Message>, i: int, j: int)
    requires 0 <= i < j < |ms| && ms[j].role == User
    ensures CountUsers(ms[i + 1..]) >= CountUsers(ms[j + 1..]) + 1
  {
    assert ms[i + 1..] == ms[i + 1..j] + ms[j..];
    CountUsersAppend(ms[i + 1..j], ms[j..]);
    assert ms[j..][1..] == ms[j + 1..];
  }

  /** At most two messages of any conversation receive a cache hint. */
  lemma AtMostTwoHinted(ms: seq<Message>, i: int, j: int, k: int)
    requires 0 <= i < j < k < |ms|
    ensures !(Hinted(ms, i) && Hinted(ms, j) && Hinted(ms, k))
  {
    if Hinted(ms, i) && Hinted(ms, j) && Hinted(ms, k) {
      UsersAfterGrow(ms, i, j);
      UsersAfterGrow(ms, j, k);
    }
  }

  lemma {:induction false} NoUsers(ms: seq<Message>, from: int)
    requires 0 <= from <= |ms|
    requires forall j :: from <= j < |ms| ==> ms[j].role != User
    ensures CountUsers(ms[from..]) == 0
    decreases |ms| - from
  {
    if from < |ms| {
      assert ms[from..][1..] == ms[from + 1..];
      NoUsers(ms, from + 1);
    }
  }

  /** The most recent user message is hinted. */
  lemma LastUserHinted(ms: seq<Message>, i: int)
    requires 0 <= i < |ms| && ms[i].role == User
    requires forall j :: i < j < |ms| ==> ms[j].role != User
    ensures Hinted(ms, i)
  {
    NoUsers(ms, i + 1);
  }

  /** The user message before the most recent one is hinted too. */
  lemma SecondLastUserHinted(ms: seq<Message>, i: int, last: int)
    requires 0 <= i < last < |ms| && ms[i].role == User && ms[last].role == User
    requires forall j :: i < j < |ms| && j != last ==> ms[j].role != User
    ensures Hinted(ms, i)
  {
    assert ms[i + 1..] == ms[i + 1..last] + ms[last..];
    CountUsersAppend(ms[i + 1..last], ms[last..]);
    var pre := ms[i + 1..last];
    forall j | 0 <= j < |pre| ensures pre[j].role != User {
      assert pre[j] == ms[i + 1 + j];
    }
    NoUsers(pre, 0);
    assert pre[0..] == pre;
    assert ms[last..][1..] == ms[last + 1..];
    NoUsers(ms, last + 1);
  }
}
