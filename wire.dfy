/** OpenAI chat-completion message parameters, as plain records. Keys that may be
    missing or `None` in the Python dictionaries are `Option`s or explicit constructors. */
module Wire {
  import opened Wrappers

  /** One entry of a multimodal `content` list. */
  datatype Part =
    | TextPart(text: string)                 // {"type": "text", "text": ...}
    | ImagePart(url: string, detail: string) // {"type": "image_url", "image_url": {...}}

  /** The value under a message's "content" key. */
  datatype WireContent =
    | Absent                 // no "content" key
    | Null                   // "content": None
    | Str(s: string)
    | PartList(parts: seq<Part>)

  /** {"type": "function", "id": ..., "function": {"name": ..., "arguments": ...}} */
  datatype WireToolCall = WireToolCall(id: string, name: string, arguments: string)

  datatype WireMessage = WireMessage(
    role: Option<string>,
    content: WireContent,
    toolCallId: Option<string>,
    toolCalls: Option<seq<WireToolCall>>)

  predicate HasRole(m: WireMessage, role: string) {
    m.role == Some(role)
  }
}
