/** Formatting of Home Assistant LLM tools as OpenAI function tools
    (`_remove_unsupported_tool_schema_keys` and `_format_tool` in entity.py). */
module ToolFormat {
  import opened Json
  import opened Text
  import opened Wrappers

  /** A JSON-Schema object as produced by the schema converter. */
  type Schema = map<string, Json>

  /** The combinator keywords many inference servers reject, in the order they are removed. */
  const UnsupportedKeys: seq<string> := ["allOf", "anyOf", "oneOf"]

  /** Description used when a tool has none, or only whitespace. */
  const Placeholder: string := "A callable function"

  /** A Home Assistant LLM tool; `P` is its (opaque) voluptuous parameter schema. */
  datatype Tool<P> = Tool(name: string, description: Option<string>, parameters: P)

  /** An OpenAI tool of type "function". */
  datatype ToolSpec = FunctionTool(name: string, description: string, parameters: Schema)

  /** Pops each unsupported keyword from the schema, if present. */
  method RemoveUnsupportedToolSchemaKeys(schema: Schema) returns (r: Schema)
    ensures r.Keys == schema.Keys - {"allOf", "anyOf", "oneOf"}
    ensures forall k :: k in r ==> r[k] == schema[k]
  {
    r := schema;
    for i := 0 to |UnsupportedKeys|
      invariant r.Keys == schema.Keys - (set j | 0 <= j < i :: UnsupportedKeys[j])
      invariant forall k :: k in r ==> r[k] == schema[k]
    {
      r := r - {UnsupportedKeys[i]};
    }
    assert (set j | 0 <= j < 3 :: UnsupportedKeys[j]) == {"allOf", "anyOf", "oneOf"} by {
      assert UnsupportedKeys[0] == "allOf" && UnsupportedKeys[1] == "anyOf" && UnsupportedKeys[2] == "oneOf";
    }
  }

  /** `spec` is the OpenAI form of `tool`: the same name, the converted parameters without
      the unsupported keywords, and the tool's description unless it is missing or blank. */
  predicate FormatOf<P>(tool: Tool<P>, convert: P -> Schema, spec: ToolSpec) {
    && spec.name == tool.name
    && spec.parameters.Keys == convert(tool.parameters).Keys - {"allOf", "anyOf", "oneOf"}
    && (forall k :: k in spec.parameters ==> spec.parameters[k] == convert(tool.parameters)[k])
    && spec.description
       == if tool.description.None? || AllSpace(tool.description.value) then Placeholder else tool.description.value
  }

  /** Converts the tool's parameters, strips the unsupported keywords and falls back to
      the placeholder description when the tool has no non-blank description. */
  method FormatTool<P>(tool: Tool<P>, convert: P -> Schema) returns (r: ToolSpec)
    ensures r.name == tool.name
    ensures r.parameters.Keys == convert(tool.parameters).Keys - {"allOf", "anyOf", "oneOf"}
    ensures forall k :: k in r.parameters ==> r.parameters[k] == convert(tool.parameters)[k]
    ensures tool.description.None? || AllSpace(tool.description.value) ==> r.description == Placeholder
    ensures tool.description.Some? && !AllSpace(tool.description.value) ==> r.description == tool.description.value
    ensures FormatOf(tool, convert, r)
  {
    var parameters := convert(tool.parameters);
    parameters := RemoveUnsupportedToolSchemaKeys(parameters);
    var description := Placeholder;
    if tool.description.Some? && tool.description.value != "" && Strip(tool.description.value) != "" {
      description := tool.description.value;
    }
    if tool.description.Some? {
      StripEmptyIffAllSpace(tool.description.value);
    }
    r := FunctionTool(tool.name, description, parameters);
  }
}
