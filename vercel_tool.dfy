/** `tool()` of src/vercel-tool.ts: a tool definition for the AI SDK, with
    its `type` defaulted to "function". A definition is the map of its own
    properties (`parameters`, `description`, `execute`, `type`). */
module VercelTool {
  import opened JsValues

  const FunctionType: Value := Str("function")

  /** `{ type: "function", ...toolDefinition }`: the definition's own
      properties are spread after the default, so they win. */
  function Tool(def: map<string, Value>): (r: map<string, Value>)
    ensures r.Keys == def.Keys + {"type"}
    ensures forall k :: k in def ==> r[k] == def[k]
    ensures "type" !in def ==> r["type"] == FunctionType
  {
    map["type" := FunctionType] + def
  }

  /** A definition whose `type` the interface allows: absent, undefined or "function". */
  predicate WellTyped(def: map<string, Value>)
  {
    "type" in def ==> def["type"] == Undefined || def["type"] == FunctionType
  }

  /** The result of `tool()` on a conforming definition is again conforming,
      and its `type` is "function" unless the definition says undefined. */
  lemma ToolTypeField(def: map<string, Value>)
    requires WellTyped(def)
    ensures WellTyped(Tool(def))
    ensures Tool(def)["type"] == FunctionType <==> !("type" in def && def["type"] == Undefined)
  {
  }

  /** `tool(tool(d))` equals `tool(d)`. */
  lemma ToolIdempotent(def: map<string, Value>)
    ensures Tool(Tool(def)) == Tool(def)
  {
    assert Tool(Tool(def)).Keys == Tool(def).Keys;
  }
}
