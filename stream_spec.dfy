/** The stream engine of `transform_anthropic_stream_to_openai` as a state
    machine: the generator's local variables form a `StreamState`, each
    provider event is one `Transition`, which may emit one canonical chunk,
    and the end of the provider stream is `FinalHistory`. The imperative
    form, which the class in stream.dfy runs, is proved equal to it. */
module StreamSpec {
  import opened Values
  import opened Types
  import opened Blocks
  import opened ResponseNormalizer

  /** What stays fixed during one stream: the model name put in every
      chunk, the creation time (`Math.floor(Date.now() / 1000)`, taken once)
      and the JSON codec that parses completed tool arguments. */
  datatype StreamConfig = StreamConfig(model: string, created: int, codec: JsonCodec)

  /** The generator's locals: the id of every chunk (`baseChunk.id`), the
      message being rebuilt, the open tool call (an empty id or name stands
      for `null`), its argument buffer, the index the next tool call gets,
      and the engine's conversation record `anthropic_conversation`. */
  datatype StreamState = StreamState(
    baseId: string, message: Option<Message>, toolId: string, toolName: string,
    buffer: string, toolIndex: nat, history: seq<Message>)

  function Initial(baseId: string, history: seq<Message>): (r: StreamState)
    ensures r.message.None? && r.toolId == "" && r.toolName == "" && r.buffer == ""
    ensures r.toolIndex == 0 && r.history == history && r.baseId == baseId
  {
    StreamState(baseId, None, "", "", "", 0, history)
  }

  datatype StepResult = StepResult(state: StreamState, out: Option<OpenAIChunk>)

  /** `{...baseChunk, choices: [{index: 0, delta, logprobs: null, finish_reason}]}`. */
  function MakeChunk(cfg: StreamConfig, baseId: string, delta: ChunkDelta, finish: Option<string>): (r: OpenAIChunk)
    ensures r.id == baseId && r.objectType == ChunkObject && r.model == cfg.model && r.created == cfg.created
    ensures r.systemFingerprint == Some(Fingerprint) && |r.choices| == 1 && r.choices[0].index == 0
    ensures r.choices[0].delta == delta && r.choices[0].finishReason == finish
  {
    OpenAIChunk(baseId, ChunkObject, cfg.created, cfg.model, Some(Fingerprint), [ChunkChoice(0, delta, Some(JNull), finish)])
  }

  /** A delta carrying one tool-call fragment of type "function". */
  function ToolDelta(index: nat, id: string, name: string, arguments: string): ChunkDelta {
    ChunkDelta(None, Nullable.Absent, Some([ToolCall(Some(index), id, Some("function"), name, arguments)]))
  }

  /** The text block appended in place of a tool use whose argument buffer
      does not parse. */
  function MalformedInputText(name: string, id: string): string {
    "Error: Tool " + name + " (ID: " + id + ") received malformed JSON input."
  }

  /** The block a closed tool call adds to the message: the tool use with
      its parsed arguments, or the error text when they do not parse. */
  function ClosedBlock(codec: JsonCodec, id: string, name: string, buffer: string): (r: Block)
    ensures codec.parse(buffer).Some? ==> r == ToolUse(id, name, codec.parse(buffer).value, false)
    ensures codec.parse(buffer).None? ==> r == Text(MalformedInputText(name, id), false)
  {
    var parsed := codec.parse(buffer);
    if parsed.Some? then ToolUse(id, name, parsed.value, false) else Text(MalformedInputText(name, id), false)
  }

  /** The text a chunk carries as content (`delta.content` when a string). */
  function ChunkText(c: OpenAIChunk): string {
    if |c.choices| > 0 && c.choices[0].delta.content.Present? then c.choices[0].delta.content.value else ""
  }

  /** The text an event carries (a `text_delta`'s text). */
  function EventText(ev: StreamEvent): string {
    if ev.ContentBlockDelta? && ev.delta.TextDelta? then ev.delta.text else ""
  }

  /** One event of the generator's `switch`. */
  function Transition(cfg: StreamConfig, s: StreamState, ev: StreamEvent): (r: StepResult)
    ensures r.out.Some? ==> |r.out.value.choices| == 1 && r.out.value == MakeChunk(cfg, r.state.baseId, r.out.value.choices[0].delta, r.out.value.choices[0].finishReason)
    ensures r.out.Some? ==> ChunkText(r.out.value) == EventText(ev)
    ensures r.out.None? ==> EventText(ev) == ""
    ensures ev.MessageStart? || ev.MessageDelta? || (ev.ContentBlockStart? && ev.block.ToolUseStart?) ==> r.out.Some?
    ensures ev.ContentBlockStop? || ev.MessageStop? || ev.OtherEvent? ==> r.out.None?
    ensures ev.MessageDelta? ==> r.out.value.choices[0].finishReason == StreamFinishReason(ev.stopReason)
    ensures !ev.MessageStart? ==> r.state.baseId == s.baseId
    ensures !ev.MessageStop? ==> r.state.history == s.history
    ensures ev.MessageStop? ==> r.state.message.None? && r.state.history == s.history + (if s.message.Some? then [s.message.value] else [])
  {
    match ev
    case MessageStart(id, role) =>
      StepResult(s.(baseId := id, message := Some(Message(role, Blocks([]), None, None))),
                 Some(MakeChunk(cfg, id, ChunkDelta(Some(role), Nullable.Null, None), None)))
    case ContentBlockStart(block) =>
      if block.ToolUseStart? then
        StepResult(s.(toolId := block.id, toolName := block.name, buffer := ""),
                   Some(MakeChunk(cfg, s.baseId, ToolDelta(s.toolIndex, block.id, block.name, ""), None)))
      else StepResult(s, None)
    case ContentBlockDelta(delta) =>
      (match delta
      case TextDelta(t) =>
        StepResult(s.(message := if s.message.Some? then Some(AppendBlock(s.message.value, Text(t, false))) else None),
                   Some(MakeChunk(cfg, s.baseId, ChunkDelta(None, Nullable.Present(t), None), None)))
      case InputJsonDelta(p) =>
        StepResult(s.(buffer := s.buffer + p),
                   if s.toolId != "" && s.toolName != "" then
                     Some(MakeChunk(cfg, s.baseId, ToolDelta(s.toolIndex, s.toolId, s.toolName, p), None))
                   else None)
      case OtherDelta(_) => StepResult(s, None))
    case ContentBlockStop =>
      if s.message.Some? && s.toolId != "" && s.toolName != "" then
        var block := ClosedBlock(cfg.codec, s.toolId, s.toolName, s.buffer);
        StepResult(s.(message := Some(AppendBlock(s.message.value, block)),
                      toolId := "", toolName := "", buffer := "", toolIndex := s.toolIndex + 1),
                   None)
      else StepResult(s, None)
    case MessageDelta(stopReason) =>
      StepResult(s, Some(MakeChunk(cfg, s.baseId, ChunkDelta(None, Nullable.Absent, None), StreamFinishReason(stopReason))))
    case MessageStop =>
      if s.message.Some? then
        StepResult(s.(history := s.history + [s.message.value], message := None, toolIndex := 0), None)
      else StepResult(s, None)
    case OtherEvent(_) => StepResult(s, None)
  }

  /** Outside a message the tool-call index is 0. */
  predicate Inv(s: StreamState) {
    s.message.None? ==> s.toolIndex == 0
  }

  lemma TransitionPreservesInv(cfg: StreamConfig, s: StreamState, ev: StreamEvent)
    requires Inv(s)
    ensures Inv(Transition(cfg, s, ev).state)
  {
  }

  /** The tool-call index: a tool_use block start announces the call at
      the current index with empty arguments; an argument fragment is
      forwarded, under the same index, only while a call is open; the index
      never decreases except at message_stop, which resets it to 0, and
      only the close of an open call inside a message moves it, by one. */
  lemma ToolIndexDiscipline(cfg: StreamConfig, s: StreamState, ev: StreamEvent)
    ensures var r := Transition(cfg, s, ev);
      && (ev.ContentBlockStart? && ev.block.ToolUseStart? ==>
            r.out.value.choices[0].delta == ToolDelta(s.toolIndex, ev.block.id, ev.block.name, ""))
      && (ev.ContentBlockDelta? && ev.delta.InputJsonDelta? ==>
            (r.out.Some? <==> s.toolId != "" && s.toolName != "")
            && (r.out.Some? ==> r.out.value.choices[0].delta == ToolDelta(s.toolIndex, s.toolId, s.toolName, ev.delta.partialJson)))
      && (ev.MessageStop? && s.message.Some? ==> r.state.toolIndex == 0)
      && (!ev.MessageStop? && !ev.ContentBlockStop? ==> r.state.toolIndex == s.toolIndex)
      && (ev.ContentBlockStop? ==>
            r.state.toolIndex == (if s.message.Some? && s.toolId != "" && s.toolName != "" then s.toolIndex + 1 else s.toolIndex))
  {
  }

  /** Outside message_start, the record the stream will leave keeps its
      size: an open message is committed once, at message_stop or at the
      end, and a repeated message_stop commits nothing. */
  lemma CommitOnceStep(cfg: StreamConfig, s: StreamState, ev: StreamEvent)
    requires !ev.MessageStart?
    ensures var h := FinalHistory(Transition(cfg, s, ev).state);
      |h| == |FinalHistory(s)| && h[..|s.history|] == s.history
  {
  }

  // ----- runs -----

  function Emitted(out: Option<OpenAIChunk>): (r: seq<OpenAIChunk>)
    ensures |r| <= 1 && (out.Some? ==> r == [out.value]) && (out.None? ==> r == [])
  {
    if out.Some? then [out.value] else []
  }

  datatype RunResult = RunResult(state: StreamState, chunks: seq<OpenAIChunk>)

  /** The events taken in order: the final state and the chunks yielded. */
  function Run(cfg: StreamConfig, s: StreamState, evs: seq<StreamEvent>): (r: RunResult)
    ensures |r.chunks| <= |evs|
    decreases |evs|
  {
    if |evs| == 0 then RunResult(s, [])
    else
      var p := Run(cfg, s, evs[..|evs| - 1]);
      var t := Transition(cfg, p.state, evs[|evs| - 1]);
      RunResult(t.state, p.chunks + Emitted(t.out))
  }

  lemma RunOne(cfg: StreamConfig, s: StreamState, ev: StreamEvent)
    ensures Run(cfg, s, [ev]) == RunResult(Transition(cfg, s, ev).state, Emitted(Transition(cfg, s, ev).out))
  {
    assert [ev][..0] == [];
  }

  /** Running two event sequences one after the other is running their
      concatenation. */
  lemma {:induction false} RunAppend(cfg: StreamConfig, s: StreamState, a: seq<StreamEvent>, b: seq<StreamEvent>)
    ensures var ra := Run(cfg, s, a);
      var rb := Run(cfg, ra.state, b);
      Run(cfg, s, a + b) == RunResult(rb.state, ra.chunks + rb.chunks)
    decreases |b|
  {
    if |b| == 0 {
      assert a + b == a;
    } else {
      var b' := b[..|b| - 1];
      assert (a + b)[..|a + b| - 1] == a + b';
      assert (a + b)[|a + b| - 1] == b[|b| - 1];
      RunAppend(cfg, s, a, b');
      var ra := Run(cfg, s, a);
      var rb' := Run(cfg, ra.state, b');
      var t := Transition(cfg, rb'.state, b[|b| - 1]);
      assert Run(cfg, ra.state, b) == RunResult(t.state, rb'.chunks + Emitted(t.out));
      assert Run(cfg, s, a + b) == RunResult(t.state, (ra.chunks + rb'.chunks) + Emitted(t.out));
      assert (ra.chunks + rb'.chunks) + Emitted(t.out) == ra.chunks + (rb'.chunks + Emitted(t.out));
    }
  }

  lemma {:induction false} RunPreservesInv(cfg: StreamConfig, s: StreamState, evs: seq<StreamEvent>)
    requires Inv(s)
    ensures Inv(Run(cfg, s, evs).state)
    decreases |evs|
  {
    if |evs| > 0 {
      RunPreservesInv(cfg, s, evs[..|evs| - 1]);
      TransitionPreservesInv(cfg, Run(cfg, s, evs[..|evs| - 1]).state, evs[|evs| - 1]);
    }
  }

  /** The conversation record only grows, and only at message_stop. */
  lemma {:induction false} HistoryOnlyGrows(cfg: StreamConfig, s: StreamState, evs: seq<StreamEvent>)
    ensures var h := Run(cfg, s, evs).state.history;
      |s.history| <= |h| && h[..|s.history|] == s.history
    ensures (forall k :: 0 <= k < |evs| ==> !evs[k].MessageStop?) ==> Run(cfg, s, evs).state.history == s.history
    decreases |evs|
  {
    if |evs| > 0 {
      HistoryOnlyGrows(cfg, s, evs[..|evs| - 1]);
    }
  }

  // ----- end of stream -----

  /** After the provider stream ends, a message still open is added to the
      record as it stands (no diagnostic block is added). */
  function FinalHistory(s: StreamState): (r: seq<Message>)
    ensures |r| == |s.history| + (if s.message.Some? then 1 else 0)
    ensures r[..|s.history|] == s.history
  {
    if s.message.Some? then s.history + [s.message.value] else s.history
  }

  /** A stream cut off before message_stop leaves the same record as one
      that delivered it: the open message is committed exactly once. */
  lemma MessageStopThenFinish(cfg: StreamConfig, s: StreamState)
    ensures FinalHistory(Transition(cfg, s, MessageStop).state) == FinalHistory(s)
  {
  }

  /** From any state, events without a message_start leave a record as
      long as committing the open message right away would, and keep what
      was already committed. */
  lemma {:induction false} CommitOnce(cfg: StreamConfig, s: StreamState, evs: seq<StreamEvent>)
    requires forall k :: 0 <= k < |evs| ==> !evs[k].MessageStart?
    ensures var h := FinalHistory(Run(cfg, s, evs).state);
      |h| == |FinalHistory(s)| && h[..|s.history|] == s.history
    decreases |evs|
  {
    if |evs| > 0 {
      CommitOnce(cfg, s, evs[..|evs| - 1]);
      var p := Run(cfg, s, evs[..|evs| - 1]).state;
      CommitOnceStep(cfg, p, evs[|evs| - 1]);
      HistoryOnlyGrows(cfg, s, evs[..|evs| - 1]);
      HistoryOnlyGrows(cfg, s, evs);
    }
  }

  datatype StreamOutcome = StreamOutcome(chunks: seq<OpenAIChunk>, history: seq<Message>)

  /** The whole generator: the chunks it yields and the record it leaves. */
  function TransformStream(cfg: StreamConfig, baseId: string, history: seq<Message>, evs: seq<StreamEvent>): (r: StreamOutcome)
    ensures |history| <= |r.history| && r.history[..|history|] == history
    ensures |r.chunks| <= |evs|
  {
    var run := Run(cfg, Initial(baseId, history), evs);
    HistoryOnlyGrows(cfg, Initial(baseId, history), evs);
    StreamOutcome(run.chunks, FinalHistory(run.state))
  }

  // ----- text -----

  function ChunksText(cs: seq<OpenAIChunk>): string
    decreases |cs|
  {
    if |cs| == 0 then "" else ChunksText(cs[..|cs| - 1]) + ChunkText(cs[|cs| - 1])
  }

  function EventsText(evs: seq<StreamEvent>): string
    decreases |evs|
  {
    if |evs| == 0 then "" else EventsText(evs[..|evs| - 1]) + EventText(evs[|evs| - 1])
  }

  /** The text content of the chunks yielded is exactly the text of the
      provider's text deltas, in order. */
  lemma {:induction false} StreamedTextMatches(cfg: StreamConfig, s: StreamState, evs: seq<StreamEvent>)
    ensures ChunksText(Run(cfg, s, evs).chunks) == EventsText(evs)
    decreases |evs|
  {
    if |evs| > 0 {
      var p := Run(cfg, s, evs[..|evs| - 1]);
      var t := Transition(cfg, p.state, evs[|evs| - 1]);
      StreamedTextMatches(cfg, s, evs[..|evs| - 1]);
      var cs := p.chunks + Emitted(t.out);
      if t.out.Some? {
        assert cs[..|cs| - 1] == p.chunks;
      } else {
        assert cs == p.chunks;
      }
    }
  }

  /** The message `m` is `m0` with `txt` appended to its text and no tool
      use added. */
  predicate TextGrown(m0: Message, m: Option<Message>, txt: string) {
    && m.Some? && m.value.role == m0.role
    && Texts(ContentArray(m.value.content)) == Texts(ContentArray(m0.content)) + txt
    && ToolUses(ContentArray(m.value.content)) == ToolUses(ContentArray(m0.content))
  }

  /** The event opens a tool-use block. */
  predicate OpensTool(ev: StreamEvent) {
    ev.ContentBlockStart? && ev.block.ToolUseStart?
  }

  /** One event inside a message that neither starts nor stops a message,
      and is not a block stop closing an open tool call: the message's text
      grows by the event's text and no tool use is added. With no call
      open, an event that does not open one leaves no call open. */
  lemma TransitionExtendsText(cfg: StreamConfig, s: StreamState, ev: StreamEvent)
    requires s.message.Some?
    requires !ev.MessageStart? && !ev.MessageStop?
    requires ev.ContentBlockStop? ==> s.toolId == ""
    ensures TextGrown(s.message.value, Transition(cfg, s, ev).state.message, EventText(ev))
    ensures s.toolId == "" && !OpensTool(ev) ==> Transition(cfg, s, ev).state.toolId == ""
  {
    if ev.ContentBlockDelta? && ev.delta.TextDelta? {
      AppendTextExtends(s.message.value, ev.delta.text, false);
    } else {
      assert Transition(cfg, s, ev).state.message == s.message;
      assert EventText(ev) == "";
    }
  }

  /** Growth composes: growing by `a` then by `b` is growing by `a + b`. */
  lemma TextGrownTrans(m0: Message, m1: Message, m2: Option<Message>, a: string, b: string)
    requires TextGrown(m0, Some(m1), a) && TextGrown(m1, m2, b)
    ensures TextGrown(m0, m2, a + b)
  {
    assert Texts(ContentArray(m0.content)) + a + b == Texts(ContentArray(m0.content)) + (a + b);
  }

  /** One more event extends a run's growth by that event's text. */
  lemma TextGrownStep(cfg: StreamConfig, s: StreamState, evs: seq<StreamEvent>)
    requires s.message.Some? && |evs| > 0
    requires TextGrown(s.message.value, Run(cfg, s, evs[..|evs| - 1]).state.message, EventsText(evs[..|evs| - 1]))
    requires var ev := evs[|evs| - 1]; !ev.MessageStart? && !ev.MessageStop?
    requires evs[|evs| - 1].ContentBlockStop? ==> Run(cfg, s, evs[..|evs| - 1]).state.toolId == ""
    ensures TextGrown(s.message.value, Run(cfg, s, evs).state.message, EventsText(evs))
    ensures Run(cfg, s, evs[..|evs| - 1]).state.toolId == "" && !OpensTool(evs[|evs| - 1])
            ==> Run(cfg, s, evs).state.toolId == ""
  {
    var p := Run(cfg, s, evs[..|evs| - 1]).state;
    var ev := evs[|evs| - 1];
    TransitionExtendsText(cfg, p, ev);
    TextGrownTrans(s.message.value, p.message.value, Transition(cfg, p, ev).state.message, EventsText(evs[..|evs| - 1]), EventText(ev));
  }

  /** Inside a message, events that neither start nor stop a message
      extend the rebuilt message's text by exactly their text and add no
      tool use, provided no tool call is closed on the way: either no call
      is open and none is opened (whole text blocks, stops included), or
      no block is stopped (the inside of any block). */
  lemma {:induction false} TextReassembled(cfg: StreamConfig, s: StreamState, evs: seq<StreamEvent>)
    requires s.message.Some?
    requires forall k :: 0 <= k < |evs| ==> !evs[k].MessageStart? && !evs[k].MessageStop?
    requires || (s.toolId == "" && forall k :: 0 <= k < |evs| ==> !OpensTool(evs[k]))
             || (forall k :: 0 <= k < |evs| ==> !evs[k].ContentBlockStop?)
    ensures TextGrown(s.message.value, Run(cfg, s, evs).state.message, EventsText(evs))
    ensures s.toolId == "" && (forall k :: 0 <= k < |evs| ==> !OpensTool(evs[k])) ==> Run(cfg, s, evs).state.toolId == ""
    decreases |evs|
  {
    if |evs| == 0 {
      assert Run(cfg, s, evs).state == s;
      assert Texts(ContentArray(s.message.value.content)) + "" == Texts(ContentArray(s.message.value.content));
    } else {
      var init := evs[..|evs| - 1];
      assert forall k :: 0 <= k < |init| ==> init[k] == evs[k];
      TextReassembled(cfg, s, init);
      TextGrownStep(cfg, s, evs);
    }
  }

  /** The text deltas carrying `ts`, in order. */
  function TextDeltas(ts: seq<string>): (r: seq<StreamEvent>)
    ensures |r| == |ts| && forall k :: 0 <= k < |ts| ==> r[k] == ContentBlockDelta(TextDelta(ts[k]))
  {
    seq(|ts|, k requires 0 <= k < |ts| => ContentBlockDelta(TextDelta(ts[k])))
  }

  /** A text block's start and deltas carry exactly the deltas' texts. */
  lemma {:induction false} TextBlockEventsText(ts: seq<string>)
    ensures EventsText([ContentBlockStart(TextStart)] + TextDeltas(ts)) == Concat(ts)
    decreases |ts|
  {
    var evs := [ContentBlockStart(TextStart)] + TextDeltas(ts);
    if |ts| == 0 {
      assert evs[..0] == [];
    } else {
      var init := ts[..|ts| - 1];
      assert evs[..|evs| - 1] == [ContentBlockStart(TextStart)] + TextDeltas(init);
      TextBlockEventsText(init);
    }
  }

  /** A complete text block (start, text deltas, stop) inside a message
      with no tool call open appends exactly the deltas' texts to the
      rebuilt message and adds no tool use. */
  lemma TextBlockReassembled(cfg: StreamConfig, s: StreamState, ts: seq<string>)
    requires s.message.Some? && s.toolId == ""
    ensures TextGrown(s.message.value, Run(cfg, s, [ContentBlockStart(TextStart)] + TextDeltas(ts) + [ContentBlockStop]).state.message, Concat(ts))
  {
    var inner := [ContentBlockStart(TextStart)] + TextDeltas(ts);
    var evs := inner + [ContentBlockStop];
    assert forall k :: 0 <= k < |evs| ==> !OpensTool(evs[k]) && !evs[k].MessageStart? && !evs[k].MessageStop?;
    TextReassembled(cfg, s, evs);
    assert evs[..|evs| - 1] == inner;
    TextBlockEventsText(ts);
  }

  // ----- tool calls -----

  function JsonDeltas(ps: seq<string>): (r: seq<StreamEvent>)
    ensures |r| == |ps| && forall k :: 0 <= k < |ps| ==> r[k] == ContentBlockDelta(InputJsonDelta(ps[k]))
  {
    seq(|ps|, k requires 0 <= k < |ps| => ContentBlockDelta(InputJsonDelta(ps[k])))
  }

  /** The chunks forwarding fragments `ps` of the call `(index, id, name)`. */
  function FragmentChunks(cfg: StreamConfig, baseId: string, index: nat, id: string, name: string, ps: seq<string>): (r: seq<OpenAIChunk>)
    ensures |r| == |ps|
    ensures forall k :: 0 <= k < |ps| ==> r[k] == MakeChunk(cfg, baseId, ToolDelta(index, id, name, ps[k]), None)
  {
    seq(|ps|, k requires 0 <= k < |ps| => MakeChunk(cfg, baseId, ToolDelta(index, id, name, ps[k]), None))
  }

  /** Inside an open tool call every argument fragment is buffered and
      yielded as a fragment of that call's index. */
  lemma {:induction false} ArgumentsAccumulate(cfg: StreamConfig, t: StreamState, ps: seq<string>)
    requires t.toolId != "" && t.toolName != ""
    ensures Run(cfg, t, JsonDeltas(ps))
         == RunResult(t.(buffer := t.buffer + Concat(ps)), FragmentChunks(cfg, t.baseId, t.toolIndex, t.toolId, t.toolName, ps))
    decreases |ps|
  {
    if |ps| == 0 {
      assert t.(buffer := t.buffer + "") == t;
    } else {
      ArgumentsAccumulate(cfg, t, ps[..|ps| - 1]);
      FragmentAppend(cfg, t, ps);
    }
  }

  /** One fragment inside an open call is buffered and forwarded. */
  lemma FragmentStep(cfg: StreamConfig, u: StreamState, part: string)
    requires u.toolId != "" && u.toolName != ""
    ensures Transition(cfg, u, ContentBlockDelta(InputJsonDelta(part)))
         == StepResult(u.(buffer := u.buffer + part), Some(MakeChunk(cfg, u.baseId, ToolDelta(u.toolIndex, u.toolId, u.toolName, part), None)))
  {
  }

  /** The inductive step of `ArgumentsAccumulate`: the last fragment. */
  lemma FragmentAppend(cfg: StreamConfig, t: StreamState, ps: seq<string>)
    requires t.toolId != "" && t.toolName != "" && |ps| > 0
    requires Run(cfg, t, JsonDeltas(ps[..|ps| - 1]))
          == RunResult(t.(buffer := t.buffer + Concat(ps[..|ps| - 1])),
                       FragmentChunks(cfg, t.baseId, t.toolIndex, t.toolId, t.toolName, ps[..|ps| - 1]))
    ensures Run(cfg, t, JsonDeltas(ps))
         == RunResult(t.(buffer := t.buffer + Concat(ps)), FragmentChunks(cfg, t.baseId, t.toolIndex, t.toolId, t.toolName, ps))
  {
    var p := ps[..|ps| - 1];
    var u := t.(buffer := t.buffer + Concat(p));
    var evs := JsonDeltas(ps);
    assert evs[..|evs| - 1] == JsonDeltas(p);
    assert evs[|evs| - 1] == ContentBlockDelta(InputJsonDelta(ps[|ps| - 1]));
    FragmentStep(cfg, u, ps[|ps| - 1]);
    FragmentChunksSnoc(cfg, t.baseId, t.toolIndex, t.toolId, t.toolName, ps);
    assert t.buffer + Concat(p) + ps[|ps| - 1] == t.buffer + Concat(ps);
  }

  /** The fragment chunks of `ps` are those of its prefix and one more. */
  lemma FragmentChunksSnoc(cfg: StreamConfig, baseId: string, index: nat, id: string, name: string, ps: seq<string>)
    requires |ps| > 0
    ensures FragmentChunks(cfg, baseId, index, id, name, ps)
         == FragmentChunks(cfg, baseId, index, id, name, ps[..|ps| - 1])
            + [MakeChunk(cfg, baseId, ToolDelta(index, id, name, ps[|ps| - 1]), None)]
  {
  }

  function ToolBlockEvents(id: string, name: string, ps: seq<string>): seq<StreamEvent> {
    [ContentBlockStart(ToolUseStart(id, name))] + JsonDeltas(ps) + [ContentBlockStop]
  }

  lemma OpenTool(cfg: StreamConfig, s: StreamState, id: string, name: string)
    ensures Run(cfg, s, [ContentBlockStart(ToolUseStart(id, name))])
         == RunResult(s.(toolId := id, toolName := name, buffer := ""),
                      [MakeChunk(cfg, s.baseId, ToolDelta(s.toolIndex, id, name, ""), None)])
  {
    RunOne(cfg, s, ContentBlockStart(ToolUseStart(id, name)));
  }

  lemma CloseTool(cfg: StreamConfig, u: StreamState)
    requires u.message.Some? && u.toolId != "" && u.toolName != ""
    ensures Run(cfg, u, [ContentBlockStop])
         == RunResult(u.(message := Some(AppendBlock(u.message.value, ClosedBlock(cfg.codec, u.toolId, u.toolName, u.buffer))),
                         toolId := "", toolName := "", buffer := "", toolIndex := u.toolIndex + 1),
                      [])
  {
    RunOne(cfg, u, ContentBlockStop);
  }

  /** A complete tool-use block inside a message: the consumer is sent the
      call's id, name and index once with empty arguments, then every
      argument fragment under the same index; the rebuilt message gains the
      block made from the whole buffer; the accumulators are reset and the
      next call gets the next index. */
  lemma ToolCallReassembled(cfg: StreamConfig, s: StreamState, id: string, name: string, ps: seq<string>)
    requires s.message.Some? && id != "" && name != ""
    ensures Run(cfg, s, ToolBlockEvents(id, name, ps))
         == RunResult(s.(message := Some(AppendBlock(s.message.value, ClosedBlock(cfg.codec, id, name, Concat(ps)))),
                         toolId := "", toolName := "", buffer := "", toolIndex := s.toolIndex + 1),
                      [MakeChunk(cfg, s.baseId, ToolDelta(s.toolIndex, id, name, ""), None)]
                        + FragmentChunks(cfg, s.baseId, s.toolIndex, id, name, ps))
  {
    var mid := [ContentBlockStart(ToolUseStart(id, name))] + JsonDeltas(ps);
    assert ToolBlockEvents(id, name, ps) == mid + [ContentBlockStop];
    var ra := Run(cfg, s, mid);
    var closed := s.(message := Some(AppendBlock(s.message.value, ClosedBlock(cfg.codec, id, name, Concat(ps)))),
                     toolId := "", toolName := "", buffer := "", toolIndex := s.toolIndex + 1);
    var first := [MakeChunk(cfg, s.baseId, ToolDelta(s.toolIndex, id, name, ""), None)]
                   + FragmentChunks(cfg, s.baseId, s.toolIndex, id, name, ps);
    assert ra == RunResult(s.(toolId := id, toolName := name, buffer := Concat(ps)), first) by {
      OpenAndFill(cfg, s, id, name, ps);
    }
    assert Run(cfg, ra.state, [ContentBlockStop]) == RunResult(closed, []) by {
      CloseTool(cfg, ra.state);
    }
    assert Run(cfg, s, mid + [ContentBlockStop]) == RunResult(closed, ra.chunks + []) by {
      RunAppend(cfg, s, mid, [ContentBlockStop]);
    }
    assert ra.chunks + [] == ra.chunks;
  }

  /** The opening event and the argument fragments of a tool-use block. */
  lemma OpenAndFill(cfg: StreamConfig, s: StreamState, id: string, name: string, ps: seq<string>)
    requires id != "" && name != ""
    ensures Run(cfg, s, [ContentBlockStart(ToolUseStart(id, name))] + JsonDeltas(ps))
         == RunResult(s.(toolId := id, toolName := name, buffer := Concat(ps)),
                      [MakeChunk(cfg, s.baseId, ToolDelta(s.toolIndex, id, name, ""), None)]
                        + FragmentChunks(cfg, s.baseId, s.toolIndex, id, name, ps))
  {
    var start := [ContentBlockStart(ToolUseStart(id, name))];
    var t := s.(toolId := id, toolName := name, buffer := "");
    OpenTool(cfg, s, id, name);
    ArgumentsAccumulate(cfg, t, ps);
    RunAppend(cfg, s, start, JsonDeltas(ps));
    assert t.buffer + Concat(ps) == Concat(ps);
  }

  /** With a codec whose parse undoes its stringify, fragments that spell
      out the serialised arguments `j` leave exactly the tool use `(id,
      name, j)` as the message's newest tool use, and no text. */
  lemma ToolCallRoundTrip(cfg: StreamConfig, s: StreamState, id: string, name: string, ps: seq<string>, j: Json)
    requires s.message.Some? && id != "" && name != ""
    requires RoundTrips(cfg.codec) && Concat(ps) == cfg.codec.stringify(j)
    ensures Run(cfg, s, ToolBlockEvents(id, name, ps)).state.message.Some?
    ensures var m := Run(cfg, s, ToolBlockEvents(id, name, ps)).state.message.value;
      && ToolUses(ContentArray(m.content)) == ToolUses(ContentArray(s.message.value.content)) + [ToolUse(id, name, j, false)]
      && Texts(ContentArray(m.content)) == Texts(ContentArray(s.message.value.content))
  {
    ToolCallReassembled(cfg, s, id, name, ps);
    ClosedBlockRoundTrip(cfg.codec, s.message.value, id, name, Concat(ps), j);
  }

  /** Closing a tool-use block whose buffer is the serialised `j` appends
      the tool use `(id, name, j)` and no text. */
  lemma ClosedBlockRoundTrip(codec: JsonCodec, m: Message, id: string, name: string, buffer: string, j: Json)
    requires id != "" && name != ""
    requires RoundTrips(codec) && buffer == codec.stringify(j)
    ensures var bs := ContentArray(AppendBlock(m, ClosedBlock(codec, id, name, buffer)).content);
      && ToolUses(bs) == ToolUses(ContentArray(m.content)) + [ToolUse(id, name, j, false)]
      && Texts(bs) == Texts(ContentArray(m.content))
  {
    assert codec.parse(codec.stringify(j)) == Some(j);
    AppendToolUseExtends(m, id, name, j, false);
  }
}
