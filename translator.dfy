/** Translation of Home Assistant chat-log content into OpenAI message parameters
    (`_content_to_openai_message` in entity.py). */
module Translator {
  import opened Wrappers
  import opened Text
  import opened Json
  import opened Wire

  /** A file attached to a user message. */
  datatype Attachment = Attachment(mimeType: string, path: string)

  /** A tool call issued by the assistant (Home Assistant's `llm.ToolInput`). */
  datatype ToolInput = ToolInput(id: string, toolName: string, toolArgs: Json)

  /** The kinds of content a Home Assistant chat log holds. */
  datatype ChatContent =
    | SystemContent(text: string)
    | UserContent(text: string, attachments: seq<Attachment>)
    | AssistantContent(reply: Option<string>, toolCalls: seq<ToolInput>)
    | ToolResultContent(toolCallId: string, toolName: string, toolResult: Json)

  /** The translation key of the error raised for a non-image attachment. */
  datatype TranslateError = UnsupportedAttachmentType

  predicate IsImage(a: Attachment) {
    StartsWith(a.mimeType, "image/")
  }

  /** An RFC 2397 data URL; `b64` is the base64 text of the file, read outside the model. */
  function DataUrl(mimeType: string, b64: string): string {
    "data:" + mimeType + ";base64," + b64
  }

  /** One image part per attachment, in order. */
  function ImageParts(atts: seq<Attachment>, readB64: string -> string): (r: seq<Part>)
    ensures |r| == |atts|
  {
    seq(|atts|, i requires 0 <= i < |atts| => ImagePart(DataUrl(atts[i].mimeType, readB64(atts[i].path)), "auto"))
  }

  function WireToolCalls(calls: seq<ToolInput>, dumps: Json -> string): (r: seq<WireToolCall>)
    ensures |r| == |calls|
  {
    seq(|calls|, i requires 0 <= i < |calls| => WireToolCall(calls[i].id, calls[i].toolName, dumps(calls[i].toolArgs)))
  }

  function ToolMessage(id: string, content: string): WireMessage {
    WireMessage(Some("tool"), Str(content), Some(id), None)
  }

  /** The translation as a function: `Success(None)` is the dropped message,
      `Failure` the raised error. `dumps` is `json.dumps` with its string fallback,
      `readB64` the base64 encoding of an attachment's file. */
  function Translate(c: ChatContent, dumps: Json -> string, readB64: string -> string): Result<Option<WireMessage>, TranslateError> {
    match c
    case ToolResultContent(id, _, result) => Success(Some(ToolMessage(id, dumps(result))))
    case SystemContent(text) =>
      if text != "" then Success(Some(WireMessage(Some("system"), Str(text), None, None))) else Success(None)
    case UserContent(text, atts) =>
      if text == "" then Success(None)
      else if exists i | 0 <= i < |atts| :: !IsImage(atts[i]) then Failure(UnsupportedAttachmentType)
      else Success(Some(WireMessage(Some("user"), PartList(ImageParts(atts, readB64) + [TextPart(text)]), None, None)))
    case AssistantContent(text, calls) =>
      var content := if text.Some? then Str(text.value) else Null;
      var wireCalls := if calls != [] then Some(WireToolCalls(calls, dumps)) else None;
      Success(Some(WireMessage(Some("assistant"), content, None, wireCalls)))
  }

  /** The translation as the source performs it: a case split, and for a user message a
      loop over the attachments that appends to a list of parts. */
  method ContentToOpenAIMessage(c: ChatContent, dumps: Json -> string, readB64: string -> string)
    returns (r: Result<Option<WireMessage>, TranslateError>)
    ensures r == Translate(c, dumps, readB64)
  {
    match c {
      case ToolResultContent(id, _, result) =>
        r := Success(Some(ToolMessage(id, dumps(result))));
      case SystemContent(text) =>
        if text != "" {
          r := Success(Some(WireMessage(Some("system"), Str(text), None, None)));
          return;
        }
        r := Success(None);
      case UserContent(text, atts) =>
        if text == "" {
          r := Success(None);
          return;
        }
        var parts: seq<Part> := [];
        for i := 0 to |atts|
          invariant parts == ImageParts(atts[..i], readB64)
          invariant forall j :: 0 <= j < i ==> IsImage(atts[j])
        {
          if !StartsWith(atts[i].mimeType, "image/") {
            r := Failure(UnsupportedAttachmentType);
            return;
          }
          parts := parts + [ImagePart(DataUrl(atts[i].mimeType, readB64(atts[i].path)), "auto")];
        }
        assert atts[..|atts|] == atts;
        parts := parts + [TextPart(text)];
        r := Success(Some(WireMessage(Some("user"), PartList(parts), None, None)));
      case AssistantContent(text, calls) =>
        var param := WireMessage(Some("assistant"), if text.Some? then Str(text.value) else Null, None, None);
        if calls != [] {
          param := param.(toolCalls := Some(WireToolCalls(calls, dumps)));
        }
        r := Success(Some(param));
    }
  }

  /** Reads a tool result back from its wire form: the call id and the decoded payload. */
  function ToolResultFromWire(m: WireMessage, parse: string -> Option<Json>): Option<(string, Json)> {
    if m.role == Some("tool") && m.toolCallId.Some? && m.content.Str? then
      match parse(m.content.s)
      case Some(v) => Some((m.toolCallId.value, v))
      case None => None
    else None
  }

  /** A tool result becomes a "tool" message with the same call id, and reading it back
      recovers the id and the payload whenever the JSON parser inverts the serialiser. */
  lemma ToolResultRoundTrip(c: ChatContent, dumps: Json -> string, readB64: string -> string, parse: string -> Option<Json>)
    requires c.ToolResultContent?
    requires parse(dumps(c.toolResult)) == Some(c.toolResult)
    ensures Translate(c, dumps, readB64).Success?
    ensures Translate(c, dumps, readB64).value.Some?
    ensures HasRole(Translate(c, dumps, readB64).value.value, "tool")
    ensures ToolResultFromWire(Translate(c, dumps, readB64).value.value, parse) == Some((c.toolCallId, c.toolResult))
  {
  }

  /** A system or user message with empty text is dropped, attachments or not. */
  lemma EmptyTextDropped(c: ChatContent, dumps: Json -> string, readB64: string -> string)
    requires c.SystemContent? || c.UserContent?
    requires c.text == ""
    ensures Translate(c, dumps, readB64) == Success(None)
  {
  }

  /** A user message with text fails exactly when some attachment is not an image;
      otherwise its parts are one image per attachment, in order, then the text. */
  lemma UserParts(text: string, atts: seq<Attachment>, dumps: Json -> string, readB64: string -> string)
    requires text != ""
    ensures Translate(UserContent(text, atts), dumps, readB64).Failure?
        <==> exists i | 0 <= i < |atts| :: !StartsWith(atts[i].mimeType, "image/")
    ensures Translate(UserContent(text, atts), dumps, readB64).Success? ==>
      var m := Translate(UserContent(text, atts), dumps, readB64).value;
      && m.Some? && HasRole(m.value, "user") && m.value.content.PartList?
      && |m.value.content.parts| == |atts| + 1
      && m.value.content.parts[|atts|] == TextPart(text)
      && forall i :: 0 <= i < |atts| ==>
           m.value.content.parts[i] == ImagePart("data:" + atts[i].mimeType + ";base64," + readB64(atts[i].path), "auto")
  {
  }

  /** An assistant message is always translated, even with empty or missing text, and its
      tool calls keep their order, ids, names and serialised arguments. */
  lemma AssistantAlwaysTranslated(text: Option<string>, calls: seq<ToolInput>, dumps: Json -> string, readB64: string -> string)
    ensures Translate(AssistantContent(text, calls), dumps, readB64).Success?
    ensures
      var m := Translate(AssistantContent(text, calls), dumps, readB64).value;
      && m.Some? && HasRole(m.value, "assistant")
      && (text.Some? ==> m.value.content == Str(text.value))
      && (m.value.toolCalls.Some? <==> calls != [])
      && (calls != [] ==>
            && |m.value.toolCalls.value| == |calls|
            && forall i :: 0 <= i < |calls| ==>
                 && m.value.toolCalls.value[i].id == calls[i].id
                 && m.value.toolCalls.value[i].name == calls[i].toolName
                 && m.value.toolCalls.value[i].arguments == dumps(calls[i].toolArgs))
  {
  }
}
