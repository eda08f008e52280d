/** The tool-dialect normaliser: `normalizeTools` classifies every supplied
    tool as function-wrapped or loose and brings it to the canonical form;
    `transformToolsToOpenAI` wraps canonical tools again. */
module ToolSchema {
  import opened Values
  import opened Types

  /** The schema substituted when a loose tool declares none. */
  const DefaultSchema: Schema := Schema("object", JObject(map[]), [], Some(false))

  /** One element of `normalizeTools`. */
  function NormalizeTool(t: ToolDecl): (r: InputTool)
    ensures !r.cacheHint
    ensures t.Wrapped? ==> r.name == t.tool.name && r.description == t.tool.description
                           && r.inputSchema == t.tool.parameters
    ensures t.Loose? ==> r.name == t.name && r.description == t.description
  {
    match t
    case Wrapped(w) => InputTool(w.name, w.description, w.parameters, false)
    case Loose(name, description, camel, snake) =>
      // `inputSchema || input_schema || defaultSchema`: a schema object is
      // always truthy, so presence decides.
      InputTool(name, description, camel.GetOr(snake.GetOr(DefaultSchema)), false)
  }

  /** `normalizeTools`: element-wise, in order. */
  function NormalizeTools(ts: seq<ToolDecl>): (r: seq<InputTool>)
    ensures |r| == |ts|
    ensures forall i :: 0 <= i < |ts| ==> r[i] == NormalizeTool(ts[i])
  {
    seq(|ts|, i requires 0 <= i < |ts| => NormalizeTool(ts[i]))
  }

  /** `transformToolsToOpenAI`: element-wise, in order; the cache hint is
      not carried over. */
  function TransformToolsToOpenAI(ts: seq<InputTool>): (r: seq<OutputTool>)
    ensures |r| == |ts|
  {
    seq(|ts|, i requires 0 <= i < |ts| => OutputTool("function", ts[i].name, ts[i].description, ts[i].inputSchema))
  }

  /** Every wrapped tool produced is of type "function" and keeps the
      name, description and schema of the tool at the same position. */
  lemma TransformedToolsAreFunctions(ts: seq<InputTool>, i: int)
    requires 0 <= i < |ts|
    ensures TransformToolsToOpenAI(ts)[i].toolType == "function"
    ensures TransformToolsToOpenAI(ts)[i].name == ts[i].name
    ensures TransformToolsToOpenAI(ts)[i].description == ts[i].description
    ensures TransformToolsToOpenAI(ts)[i].parameters == ts[i].inputSchema
  {
  }

  /** A loose tool's schema is `inputSchema` if present, else
      `input_schema` if present, else the default empty object schema. */
  lemma LooseSchemaResolution(name: string, description: string, camel: Option<Schema>, snake: Option<Schema>)
    ensures var s := NormalizeTool(Loose(name, description, camel, snake)).inputSchema;
      && (camel.Some? ==> s == camel.value)
      && (camel.None? && snake.Some? ==> s == snake.value)
      && (camel.None? && snake.None? ==> s == Schema("object", JObject(map[]), [], Some(false)))
  {
  }

  /** The canonical tools with their cache hints cleared. */
  function WithoutHints(ts: seq<InputTool>): (r: seq<InputTool>)
    ensures |r| == |ts|
    ensures forall i :: 0 <= i < |ts| ==> !r[i].cacheHint
  {
    seq(|ts|, i requires 0 <= i < |ts| => ts[i].(cacheHint := false))
  }

  /** Function-wrapped declarations as a caller would hand them in. */
  function AsDecls(ws: seq<OutputTool>): (r: seq<ToolDecl>)
    ensures |r| == |ws|
    ensures forall i :: 0 <= i < |ws| ==> r[i] == Wrapped(ws[i])
  {
    seq(|ws|, i requires 0 <= i < |ws| => Wrapped(ws[i]))
  }

  /** Round trip: wrapping canonical tools and normalising them again gives
      the same tools back, except for cache hints, which neither form of a
      declaration carries through. */
  lemma NormalizeAfterWrap(ts: seq<InputTool>)
    ensures NormalizeTools(AsDecls(TransformToolsToOpenAI(ts))) == WithoutHints(ts)
    ensures (forall i :: 0 <= i < |ts| ==> !ts[i].cacheHint) ==>
      NormalizeTools(AsDecls(TransformToolsToOpenAI(ts))) == ts
  {
    var r := NormalizeTools(AsDecls(TransformToolsToOpenAI(ts)));
    forall i | 0 <= i < |ts| ensures r[i] == WithoutHints(ts)[i] {
    }
    assert r == WithoutHints(ts);
    if forall i :: 0 <= i < |ts| ==> !ts[i].cacheHint {
      assert WithoutHints(ts) == ts;
    }
  }

  /** Round trip the other way: normalising function-wrapped tools of type
      "function" and wrapping them again gives the same declarations. */
  lemma WrapAfterNormalize(ws: seq<OutputTool>)
    requires forall i :: 0 <= i < |ws| ==> ws[i].toolType == "function"
    ensures TransformToolsToOpenAI(NormalizeTools(AsDecls(ws))) == ws
  {
    var r := TransformToolsToOpenAI(NormalizeTools(AsDecls(ws)));
    forall i | 0 <= i < |ws| ensures r[i] == ws[i] {
    }
  }
}
