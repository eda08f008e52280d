/** Content-block helpers of `ApiHelper`: `appendBlockToMessage`, which
    grows the message rebuilt from a stream, `blockToDict`, which reduces
    a loosely typed block object to the fields of its kind, and the JSON
    form of a typed block that both of them, and `JSON.stringify`, see. */
module Blocks {
  import opened Values
  import opened Types

  /** The text a sequence of blocks carries: its text blocks' texts,
      concatenated in order. */
  function Texts(bs: seq<Block>): string {
    if |bs| == 0 then ""
    else (if bs[0].Text? then bs[0].text else "") + Texts(bs[1..])
  }

  /** The tool-use blocks among `bs`, in order. */
  function ToolUses(bs: seq<Block>): (r: seq<Block>)
    ensures |r| <= |bs| && forall k :: 0 <= k < |r| ==> r[k].ToolUse?
  {
    if |bs| == 0 then []
    else (if bs[0].ToolUse? then [bs[0]] else []) + ToolUses(bs[1..])
  }

  lemma {:induction false} TextsAppend(a: seq<Block>, b: seq<Block>)
    ensures Texts(a + b) == Texts(a) + Texts(b)
  {
    if |a| == 0 {
      assert a + b == b;
    } else {
      assert (a + b)[1..] == a[1..] + b;
      TextsAppend(a[1..], b);
    }
  }

  lemma {:induction false} ToolUsesAppend(a: seq<Block>, b: seq<Block>)
    ensures ToolUses(a + b) == ToolUses(a) + ToolUses(b)
  {
    if |a| == 0 {
      assert a + b == b;
    } else {
      assert (a + b)[1..] == a[1..] + b;
      ToolUsesAppend(a[1..], b);
    }
  }

  /** The content array `appendBlockToMessage` works on: a string becomes
      one text block, anything that is not an array becomes empty. */
  function ContentArray(c: Content): seq<Block> {
    match c
    case Blocks(bs) => bs
    case Str(s) => [Text(s, false)]
    case _ => []
  }

  /** `appendBlockToMessage(message, block)` for a well-typed block. A text
      block is merged into a trailing text block (which keeps its cache
      hint) or pushed; a tool use with a non-empty id and name, and a tool
      result with a non-empty tool_use_id and defined content, are pushed
      without a cache hint; anything else leaves the blocks as they are.
      The content always comes back as an array. */
  function AppendBlock(m: Message, b: Block): (r: Message)
    ensures r.role == m.role && r.toolCalls == m.toolCalls && r.toolCallId == m.toolCallId
    ensures r.content.Blocks?
  {
    var bs := ContentArray(m.content);
    var bs' :=
      match b
      case Text(t, _) =>
        if |bs| > 0 && bs[|bs| - 1].Text? then
          bs[..|bs| - 1] + [bs[|bs| - 1].(text := bs[|bs| - 1].text + t)]
        else bs + [Text(t, false)]
      case ToolUse(id, name, input, _) =>
        if id != "" && name != "" then bs + [ToolUse(id, name, input, false)] else bs
      case ToolResult(tid, content, isError, _) =>
        if tid != "" && content.Some? then bs + [ToolResult(tid, content, isError, false)] else bs
      case Thinking(_, _) => bs;
    m.(content := Blocks(bs'))
  }

  /** Appending text adds exactly that text, at the end, to the text the
      message carries, whether it is merged or pushed; no tool use changes. */
  lemma AppendTextExtends(m: Message, t: string, cached: bool)
    ensures Texts(AppendBlock(m, Text(t, cached)).content.blocks) == Texts(ContentArray(m.content)) + t
    ensures ToolUses(AppendBlock(m, Text(t, cached)).content.blocks) == ToolUses(ContentArray(m.content))
  {
    var bs := ContentArray(m.content);
    if |bs| > 0 && bs[|bs| - 1].Text? {
      MergeTextExtends(bs, t);
    } else {
      TextsAppend(bs, [Text(t, false)]);
      ToolUsesAppend(bs, [Text(t, false)]);
    }
  }

  /** Merging text into a trailing text block. */
  lemma MergeTextExtends(bs: seq<Block>, t: string)
    requires |bs| > 0 && bs[|bs| - 1].Text?
    ensures var last := bs[|bs| - 1];
      var bs' := bs[..|bs| - 1] + [last.(text := last.text + t)];
      Texts(bs') == Texts(bs) + t && ToolUses(bs') == ToolUses(bs)
  {
    var init := bs[..|bs| - 1];
    var last := bs[|bs| - 1];
    assert bs == init + [last];
    TextsAppend(init, [last]);
    TextsAppend(init, [last.(text := last.text + t)]);
    ToolUsesAppend(init, [last]);
    ToolUsesAppend(init, [last.(text := last.text + t)]);
  }

  /** Appending a tool use with a non-empty id and name adds exactly that
      tool use (without a cache hint) as the last block, and no text. */
  lemma AppendToolUseExtends(m: Message, id: string, name: string, input: Json, cached: bool)
    requires id != "" && name != ""
    ensures var bs' := AppendBlock(m, ToolUse(id, name, input, cached)).content.blocks;
      && bs' == ContentArray(m.content) + [ToolUse(id, name, input, false)]
      && Texts(bs') == Texts(ContentArray(m.content))
      && ToolUses(bs') == ToolUses(ContentArray(m.content)) + [ToolUse(id, name, input, false)]
  {
    TextsAppend(ContentArray(m.content), [ToolUse(id, name, input, false)]);
    ToolUsesAppend(ContentArray(m.content), [ToolUse(id, name, input, false)]);
  }

  // ----- JSON form of blocks -----

  const Ephemeral: Json := JObject(map["type" := JString("ephemeral")])

  function WithHint(fields: map<string, Json>, cached: bool): map<string, Json> {
    if cached then fields["cache_control" := Ephemeral] else fields
  }

  /** The JSON object a typed block is on the wire. */
  function BlockJson(b: Block): (r: Json)
    ensures r.JObject? && "type" in r.fields
  {
    match b
    case Text(t, c) =>
      JObject(WithHint(map["type" := JString("text"), "text" := JString(t)], c))
    case ToolUse(id, name, input, c) =>
      JObject(WithHint(map["type" := JString("tool_use"), "id" := JString(id), "name" := JString(name), "input" := input], c))
    case ToolResult(tid, content, isError, c) =>
      var f0 := map["type" := JString("tool_result"), "tool_use_id" := JString(tid)];
      var f1 := if content.Some? then f0["content" := JString(content.value)] else f0;
      var f2 := if isError.Some? then f1["is_error" := JBool(isError.value)] else f1;
      JObject(WithHint(f2, c))
    case Thinking(redacted, c) =>
      JObject(WithHint(map["type" := JString(if redacted then "redacted_thinking" else "thinking")], c))
  }

  /** `blockToDict(block)` on any JSON value: `None` stands for the `null`
      returned for a falsy block or one without a truthy `type`. Known
      kinds keep only their own fields (so a cache hint is dropped); an
      unknown kind, or a known one missing a required field, is returned
      unchanged. */
  function BlockToDict(block: Json): (r: Option<Json>)
    ensures r.None? <==> !(block.JObject? && TruthyField(Field(block.fields, "type")))
    ensures r.Some? ==> r.value.JObject? && Field(r.value.fields, "type") == Field(block.fields, "type")
  {
    if !(block.JObject? && TruthyField(Field(block.fields, "type"))) then None
    else
      var f := block.fields;
      var ty := f["type"];
      if ty == JString("text") && "text" in f && f["text"].JString? then
        Some(JObject(map["type" := ty, "text" := f["text"]]))
      else if ty == JString("tool_use") && TruthyField(Field(f, "id")) && TruthyField(Field(f, "name")) && "input" in f then
        Some(JObject(map["type" := ty, "id" := f["id"], "name" := f["name"], "input" := f["input"]]))
      else if ty == JString("tool_result") && TruthyField(Field(f, "tool_use_id")) && "content" in f then
        var d0 := map["type" := ty, "tool_use_id" := f["tool_use_id"], "content" := f["content"]];
        var d1 := if "is_error" in f then d0["is_error" := f["is_error"]] else d0;
        var d2 := if TruthyField(Field(f, "id")) then d1["id" := f["id"]] else d1;
        Some(JObject(d2))
      else if ty == JString("thinking") || ty == JString("redacted_thinking") then
        Some(JObject(map["type" := ty]))
      else
        Some(block)
  }

  /** Reducing a block twice gives what reducing it once gave. */
  lemma BlockToDictIdempotent(block: Json)
    requires BlockToDict(block).Some?
    ensures BlockToDict(BlockToDict(block).value) == BlockToDict(block)
  {
    var f := block.fields;
    var ty := f["type"];
    var d := BlockToDict(block).value;
    if ty == JString("text") && "text" in f && f["text"].JString? {
    } else if ty == JString("tool_use") && TruthyField(Field(f, "id")) && TruthyField(Field(f, "name")) && "input" in f {
    } else if ty == JString("tool_result") && TruthyField(Field(f, "tool_use_id")) && "content" in f {
      var d0 := map["type" := ty, "tool_use_id" := f["tool_use_id"], "content" := f["content"]];
      var d1 := if "is_error" in f then d0["is_error" := f["is_error"]] else d0;
      var d2 := if TruthyField(Field(f, "id")) then d1["id" := f["id"]] else d1;
      assert d == JObject(d2);
      var g := d2;
      assert g["type"] == ty && g["tool_use_id"] == f["tool_use_id"] && g["content"] == f["content"];
      assert ("is_error" in g) == ("is_error" in f);
      assert TruthyField(Field(g, "id")) == TruthyField(Field(f, "id"));
      var e0 := map["type" := ty, "tool_use_id" := g["tool_use_id"], "content" := g["content"]];
      assert e0 == d0;
      var e1 := if "is_error" in g then e0["is_error" := g["is_error"]] else e0;
      assert e1 == d1;
      var e2 := if TruthyField(Field(g, "id")) then e1["id" := g["id"]] else e1;
      assert e2 == d2;
    } else if ty == JString("thinking") || ty == JString("redacted_thinking") {
    } else {
    }
  }

  /** On the JSON form of a well-formed typed block, `blockToDict` gives
      the same block without its cache hint. */
  lemma BlockToDictDropsHint(b: Block)
    requires b.ToolUse? ==> b.id != "" && b.name != ""
    requires b.ToolResult? ==> b.toolUseId != "" && b.content.Some?
    ensures BlockToDict(BlockJson(b)) == Some(BlockJson(b.(cached := false)))
  {
    if b.ToolResult? {
      ToolResultDropsHint(b.toolUseId, b.content.value, b.isError, b.cached);
    }
  }

  lemma ToolResultDropsHint(tid: string, content: string, isError: Option<bool>, c: bool)
    requires tid != ""
    ensures BlockToDict(BlockJson(ToolResult(tid, Some(content), isError, c)))
         == Some(BlockJson(ToolResult(tid, Some(content), isError, false)))
  {
    var f := BlockJson(ToolResult(tid, Some(content), isError, c)).fields;
    var g := BlockJson(ToolResult(tid, Some(content), isError, false)).fields;
    assert !("id" in f);
    var d0 := map["type" := f["type"], "tool_use_id" := f["tool_use_id"], "content" := f["content"]];
    var d1 := if "is_error" in f then d0["is_error" := f["is_error"]] else d0;
    assert d1 == g;
  }
}
