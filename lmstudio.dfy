/** The client for LM Studio's native chat endpoint (`/api/v1/chat`): endpoint
    normalisation, request assembly, response parsing, the MCP integration list and the
    conversion of OpenAI-style messages into LM Studio's `input` list. */
module LMStudio {
  import opened Wrappers
  import opened Text
  import opened Json
  import opened Wire
  import opened ToolFormat

  const ApiPath := "/api/v1/chat"
  const McpTypeEphemeral := "ephemeral_mcp"
  const McpTypePlugin := "plugin"

  // ---------------------------------------------------------------- endpoint

  /** The server root with trailing slashes and one trailing `/v1` removed. */
  function Root(baseUrl: string): (r: string)
    ensures |r| <= |baseUrl| && r == baseUrl[..|r|]
  {
    var root := RStripChar(baseUrl, '/');
    if EndsWith(root, "/v1") then root[..|root| - 3] else root
  }

  function Endpoint(baseUrl: string): (r: string)
    ensures EndsWith(r, ApiPath) && r[..|r| - |ApiPath|] == Root(baseUrl)
  {
    Root(baseUrl) + ApiPath
  }

  /** Trailing slashes on the base URL make no difference. */
  lemma TrailingSlashIgnored(baseUrl: string)
    ensures Endpoint(baseUrl + "/") == Endpoint(baseUrl)
  {
    assert (baseUrl + "/")[..|baseUrl + "/"| - 1] == baseUrl;
  }

  /** A server root given with or without its OpenAI-style `/v1` suffix reaches the
      same native endpoint. */
  lemma V1SuffixIgnored(root: string)
    requires root == [] || (root[|root| - 1] != '/' && !EndsWith(root, "/v1"))
    ensures Endpoint(root + "/v1") == Endpoint(root) == root + ApiPath
  {
    var s := root + "/v1";
    assert RStripChar(s, '/') == s;
    assert s[..|s| - 3] == root;
    assert RStripChar(root, '/') == root;
  }

  /** The same with a trailing slash after `/v1`. */
  lemma V1SlashSuffixIgnored(root: string)
    requires root == [] || (root[|root| - 1] != '/' && !EndsWith(root, "/v1"))
    ensures Endpoint(root + "/v1/") == Endpoint(root)
  {
    var s := root + "/v1";
    assert root + "/v1/" == s + "/";
    TrailingSlashIgnored(s);
    V1SuffixIgnored(root);
  }

  // ---------------------------------------------------------------- request

  /** One entry of the `input` list. */
  datatype LmMessage = LmMessage(role: string, content: string)

  datatype Integration =
    | Ephemeral(serverLabel: string, serverUrl: string, allowedTools: Option<seq<string>>, headers: Option<Json>)
    | Plugin(id: string)

  datatype Payload = Payload(
    model: string,
    input: seq<LmMessage>,
    temperature: real,
    contextLength: int,
    integrations: Option<seq<Integration>>,
    tools: Option<seq<ToolSpec>>)

  datatype HttpRequest = HttpRequest(url: string, payload: Payload, headers: seq<(string, string)>)

  datatype HttpResponse = HttpResponse(status: int, body: string)

  datatype ChatError =
    | Transport
    | HttpStatus(status: nat, message: string)
    | MalformedBody

  /** A Python list argument is used only when it is present and non-empty. */
  predicate NonEmptyList<T>(x: Option<seq<T>>) {
    x.Some? && x.value != []
  }

  const StatusPrefix := "LM Studio responded with "

  /** The error message for a failing status: the status code and the body verbatim. */
  function StatusMessage(status: nat, body: string): (r: string)
    ensures StartsWith(r, StatusPrefix) && EndsWith(r, body)
  {
    StatusPrefix + Decimal(status) + ": " + body
  }

  /** The status code can be read back from the message. */
  lemma StatusMessageCarriesCode(status: nat, body: string)
    ensures
      var m := StatusMessage(status, body);
      var n := |Decimal(status)|;
      && |StatusPrefix| + n <= |m|
      && DigitsValue(m[|StatusPrefix|..|StatusPrefix| + n]) == status
  {
    var m := StatusMessage(status, body);
    assert m[|StatusPrefix|..|StatusPrefix| + |Decimal(status)|] == Decimal(status);
    DecimalRoundTrip(status);
  }

  class LMStudioNativeClient {
    const endpoint: string
    const apiKey: string

    constructor(baseUrl: string, apiKey: string)
      ensures endpoint == Endpoint(baseUrl) && this.apiKey == apiKey
    {
      endpoint := Endpoint(baseUrl);
      this.apiKey := apiKey;
    }

    /** Builds and sends one request; `post` is the HTTP client (`None` when the
        transport fails) and `parse` is the response's JSON decoder. */
    method Chat(model: string, messages: seq<WireMessage>, integrations: Option<seq<Integration>>,
                tools: Option<seq<ToolSpec>>, temperature: real, contextLength: int,
                reprParts: seq<Part> -> string,
                post: HttpRequest -> Option<HttpResponse>, parse: string -> Option<Json>)
      returns (sent: HttpRequest, r: Result<Json, ChatError>)
      ensures sent.url == endpoint
      ensures sent.payload.model == model && sent.payload.input == LmInput(messages, reprParts)
      ensures sent.payload.temperature == temperature && sent.payload.contextLength == contextLength
      ensures sent.payload.integrations == (if NonEmptyList(integrations) then integrations else None)
      ensures sent.payload.tools == (if NonEmptyList(tools) then tools else None)
      ensures |sent.headers| >= 1 && sent.headers[0] == ("Content-Type", "application/json")
      ensures apiKey == "" ==> |sent.headers| == 1
      ensures apiKey != "" ==> sent.headers == [("Content-Type", "application/json"), ("Authorization", "Bearer " + apiKey)]
      ensures r == Outcome(post(sent), parse)
    {
      sent := BuildRequest(model, messages, integrations, tools, temperature, contextLength, reprParts);
      r := Exchange(sent, post, parse);
    }

    /** The request `Chat` sends: the payload with the optional lists left out when
        empty, and the bearer header only when there is an API key. */
    method BuildRequest(model: string, messages: seq<WireMessage>, integrations: Option<seq<Integration>>,
                        tools: Option<seq<ToolSpec>>, temperature: real, contextLength: int,
                        reprParts: seq<Part> -> string)
      returns (sent: HttpRequest)
      ensures sent.url == endpoint
      ensures sent.payload.model == model && sent.payload.input == LmInput(messages, reprParts)
      ensures sent.payload.temperature == temperature && sent.payload.contextLength == contextLength
      ensures sent.payload.integrations == (if NonEmptyList(integrations) then integrations else None)
      ensures sent.payload.tools == (if NonEmptyList(tools) then tools else None)
      ensures |sent.headers| >= 1 && sent.headers[0] == ("Content-Type", "application/json")
      ensures apiKey == "" ==> |sent.headers| == 1
      ensures apiKey != "" ==> sent.headers == [("Content-Type", "application/json"), ("Authorization", "Bearer " + apiKey)]
    {
      var input := MessagesToLMStudioInput(messages, reprParts);
      var payload := Payload(model, input, temperature, contextLength, None, None);
      if NonEmptyList(integrations) {
        payload := payload.(integrations := integrations);
      }
      if NonEmptyList(tools) {
        payload := payload.(tools := tools);
      }
      var headers := [("Content-Type", "application/json")];
      if apiKey != "" {
        headers := headers + [("Authorization", "Bearer " + apiKey)];
      }
      sent := HttpRequest(endpoint, payload, headers);
    }
  }

  /** What a request comes to: a transport failure, an HTTP error status with its body,
      or the decoded body, which may be malformed. */
  function Outcome(response: Option<HttpResponse>, parse: string -> Option<Json>): (r: Result<Json, ChatError>)
    ensures response.None? <==> r == Failure(Transport)
    ensures r.Failure? && r.error.HttpStatus? <==> response.Some? && response.value.status >= 400
    ensures r.Success? ==> response.Some? && response.value.status < 400 && parse(response.value.body) == Some(r.value)
  {
    if response.None? then Failure(Transport)
    else if response.value.status >= 400 then
      Failure(HttpStatus(response.value.status, StatusMessage(response.value.status, response.value.body)))
    else if parse(response.value.body).Some? then Success(parse(response.value.body).value)
    else Failure(MalformedBody)
  }

  /** Posts the request and checks the status before decoding the body. */
  method Exchange(sent: HttpRequest, post: HttpRequest -> Option<HttpResponse>, parse: string -> Option<Json>)
    returns (r: Result<Json, ChatError>)
    ensures r == Outcome(post(sent), parse)
  {
    var response := post(sent);
    if response.None? {
      return Failure(Transport);
    }
    var status := response.value.status;
    if status >= 400 {
      return Failure(HttpStatus(status, StatusMessage(status, response.value.body)));
    }
    match parse(response.value.body) {
      case Some(j) => r := Success(j);
      case None => r := Failure(MalformedBody);
    }
  }

  // ---------------------------------------------------------------- response

  /** One item of the response's `output` list; absent keys are `None`. */
  datatype OutputItem = OutputItem(
    kind: Option<string>,
    content: Option<string>,
    tool: Option<string>,
    arguments: Option<Json>,
    output: Option<Json>,
    providerInfo: Option<Json>)

  /** A tool call LM Studio has already resolved, with the defaults filled in. */
  datatype ResolvedCall = ResolvedCall(tool: string, arguments: Json, output: Json, providerInfo: Json)

  predicate IsMessageText(item: OutputItem) {
    item.kind == Some("message") && item.content.Some? && item.content.value != ""
  }

  function Resolve(item: OutputItem): ResolvedCall {
    ResolvedCall(item.tool.GetOr(""), item.arguments.GetOr(EmptyObject),
                 item.output.GetOr(JString("")), item.providerInfo.GetOr(EmptyObject))
  }

  /** The non-empty text of the `message` items, in order. */
  function MessageTexts(items: seq<OutputItem>): (r: seq<string>)
    ensures |r| <= |items|
    ensures forall i :: 0 <= i < |r| ==> r[i] != ""
  {
    if items == [] then []
    else (if IsMessageText(items[0]) then [items[0].content.value] else []) + MessageTexts(items[1..])
  }

  /** The `tool_call` items, in order. */
  function ResolvedCalls(items: seq<OutputItem>): (r: seq<ResolvedCall>)
    ensures |r| <= |items|
  {
    if items == [] then []
    else (if items[0].kind == Some("tool_call") then [Resolve(items[0])] else []) + ResolvedCalls(items[1..])
  }

  /** The text is the newline-join of the message texts and the resolved calls are the
      tool-call items; a response without `output` gives no text and no calls. */
  method ParseLMStudioResponse(output: Option<seq<OutputItem>>) returns (text: string, calls: seq<ResolvedCall>)
    ensures text == Join("\n", MessageTexts(output.GetOr([])))
    ensures calls == ResolvedCalls(output.GetOr([]))
    ensures output.None? ==> text == "" && calls == []
  {
    var items := output.GetOr([]);
    var parts: seq<string> := [];
    calls := [];
    var i := 0;
    while i < |items|
      invariant 0 <= i <= |items|
      invariant parts + MessageTexts(items[i..]) == MessageTexts(items)
      invariant calls + ResolvedCalls(items[i..]) == ResolvedCalls(items)
    {
      var item := items[i];
      ParseStep(items, i, parts, calls);
      ghost var parts0, calls0 := parts, calls;
      if item.kind == Some("message") {
        if item.content.Some? && item.content.value != "" {
          parts := parts + [item.content.value];
        }
      } else if item.kind == Some("reasoning") {
        // reasoning is only logged
      } else if item.kind == Some("tool_call") {
        calls := calls + [Resolve(item)];
      }
      assert parts == parts0 + if IsMessageText(item) then [item.content.value] else [];
      assert calls == calls0 + if item.kind == Some("tool_call") then [Resolve(item)] else [];
      i := i + 1;
    }
    assert items[|items|..] == [];
    assert parts + [] == parts;
    text := Join("\n", parts);
  }

  /** The parsing loop advances by one item: the item's text and call move from the rest
      of the list onto the collected ones. */
  lemma ParseStep(items: seq<OutputItem>, i: nat, parts: seq<string>, calls: seq<ResolvedCall>)
    requires i < |items|
    ensures var x := items[i];
      && parts + MessageTexts(items[i..])
         == (parts + if IsMessageText(x) then [x.content.value] else []) + MessageTexts(items[i + 1..])
      && calls + ResolvedCalls(items[i..])
         == (calls + if x.kind == Some("tool_call") then [Resolve(x)] else []) + ResolvedCalls(items[i + 1..])
  {
    var x := items[i];
    assert items[i..][0] == x && items[i..][1..] == items[i + 1..];
    AppendAssociative(parts, if IsMessageText(x) then [x.content.value] else [], MessageTexts(items[i + 1..]));
    AppendAssociative(calls, if x.kind == Some("tool_call") then [Resolve(x)] else [], ResolvedCalls(items[i + 1..]));
  }

  /** Parsing distributes over the output list: each item contributes on its own, so
      reasoning items and items of unknown type contribute nothing wherever they occur. */
  lemma {:induction false} ParseDistributes(a: seq<OutputItem>, b: seq<OutputItem>)
    ensures MessageTexts(a + b) == MessageTexts(a) + MessageTexts(b)
    ensures ResolvedCalls(a + b) == ResolvedCalls(a) + ResolvedCalls(b)
    decreases |a|
  {
    if a == [] {
      assert a + b == b;
    } else {
      assert (a + b)[1..] == a[1..] + b;
      ParseDistributes(a[1..], b);
    }
  }

  /** An item that is neither a non-empty message nor a tool call changes nothing. */
  lemma SilentItem(a: seq<OutputItem>, x: OutputItem, b: seq<OutputItem>)
    requires !IsMessageText(x) && x.kind != Some("tool_call")
    ensures MessageTexts(a + [x] + b) == MessageTexts(a + b)
    ensures ResolvedCalls(a + [x] + b) == ResolvedCalls(a + b)
  {
    ParseDistributes(a + [x], b);
    ParseDistributes(a, [x]);
    ParseDistributes(a, b);
    assert [x][1..] == [];
  }

  // ---------------------------------------------------------------- MCP integrations

  /** The `headers` value of a stored server: a JSON string, a dict, or anything else
      (absent and falsy values are the empty string). */
  datatype HeadersField = HeaderText(text: string) | HeaderDict(fields: map<string, Json>) | HeaderOther

  /** A stored MCP server record; absent keys are `None`. */
  datatype McpServer = McpServer(
    kind: Option<string>,
    serverLabel: Option<string>,
    serverUrl: Option<string>,
    pluginId: Option<string>,
    allowedTools: Option<string>,
    headers: HeadersField)

  /** A tool name as kept: non-empty, without surrounding whitespace. */
  predicate CleanName(t: string) {
    t != "" && !IsSpace(t[0]) && !IsSpace(t[|t| - 1])
  }

  /** The stripped, non-empty pieces of a comma-separated list. */
  function StrippedNames(pieces: seq<string>): (r: seq<string>)
    ensures |r| <= |pieces|
  {
    if pieces == [] then []
    else
      var t := Strip(pieces[0]);
      (if t != "" then [t] else []) + StrippedNames(pieces[1..])
  }

  /** Every kept tool name is non-empty and has no surrounding whitespace. */
  lemma {:induction false} StrippedNamesClean(pieces: seq<string>)
    ensures forall t :: t in StrippedNames(pieces) ==> CleanName(t)
    decreases |pieces|
  {
    if pieces != [] {
      StrippedNamesClean(pieces[1..]);
      var t := Strip(pieces[0]);
      var head := if t != "" then [t] else [];
      assert StrippedNames(pieces) == head + StrippedNames(pieces[1..]);
      forall u | u in StrippedNames(pieces) ensures CleanName(u) {
        if u in head { assert u == t; }
      }
    }
  }

  function AllowedTools(raw: Option<string>): (r: Option<seq<string>>)
    ensures r.Some? ==> r.value != []
  {
    var names := StrippedNames(Split(raw.GetOr(""), ','));
    if names != [] then Some(names) else None
  }

  function HeadersOf(h: HeadersField, parse: string -> Option<Json>): Option<Json> {
    match h
    case HeaderText(t) => if Strip(t) != "" then parse(t) else None
    case HeaderDict(d) => if d != map[] then Some(JObject(d)) else None
    case HeaderOther => None
  }

  /** One stored server as an integration entry, or `None` when it is skipped. */
  function Integrate(s: McpServer, parse: string -> Option<Json>): Option<Integration> {
    var kind := s.kind.GetOr(McpTypeEphemeral);
    if kind == McpTypeEphemeral then
      var name := Strip(s.serverLabel.GetOr(""));
      var url := Strip(s.serverUrl.GetOr(""));
      if name == "" || url == "" then None
      else Some(Ephemeral(name, url, AllowedTools(s.allowedTools), HeadersOf(s.headers, parse)))
    else if kind == McpTypePlugin then
      var id := Strip(s.pluginId.GetOr(""));
      if id == "" then None else Some(Plugin(id))
    else None
  }

  /** A server of missing or ephemeral type is kept exactly when its stripped label and
      URL are both non-empty, with the allow-list and headers worked out as above; a
      plugin server is kept as its stripped id when that is non-empty; any other type is
      dropped. */
  lemma IntegrateCases(s: McpServer, parse: string -> Option<Json>)
    ensures var r := Integrate(s, parse);
      && (r.Some? && r.value.Ephemeral? ==>
            && s.kind.GetOr(McpTypeEphemeral) == McpTypeEphemeral
            && r.value.serverLabel == Strip(s.serverLabel.GetOr("")) != ""
            && r.value.serverUrl == Strip(s.serverUrl.GetOr("")) != ""
            && r.value.allowedTools == AllowedTools(s.allowedTools)
            && r.value.headers == HeadersOf(s.headers, parse))
      && (r.Some? && r.value.Plugin? ==>
            s.kind == Some(McpTypePlugin) && r.value.id == Strip(s.pluginId.GetOr("")) != "")
      && (r.None? <==>
            if s.kind.GetOr(McpTypeEphemeral) == McpTypeEphemeral
            then Strip(s.serverLabel.GetOr("")) == "" || Strip(s.serverUrl.GetOr("")) == ""
            else s.kind != Some(McpTypePlugin) || Strip(s.pluginId.GetOr("")) == "")
  {
  }

  function Integrations(servers: seq<McpServer>, parse: string -> Option<Json>): (r: seq<Integration>)
    ensures |r| <= |servers|
  {
    if servers == [] then []
    else OptSeq(Integrate(servers[0], parse)) + Integrations(servers[1..], parse)
  }

  method BuildMcpIntegrations(servers: seq<McpServer>, parse: string -> Option<Json>) returns (r: seq<Integration>)
    ensures r == Integrations(servers, parse)
  {
    r := [];
    for i := 0 to |servers|
      invariant r + Integrations(servers[i..], parse) == Integrations(servers, parse)
    {
      IntegrationsStep(servers, i, r, parse);
      r := r + OptSeq(Integrate(servers[i], parse));
    }
    IntegrationsDone(servers, r, parse);
  }

  lemma IntegrationsStep(servers: seq<McpServer>, i: nat, r: seq<Integration>, parse: string -> Option<Json>)
    requires i < |servers|
    requires r + Integrations(servers[i..], parse) == Integrations(servers, parse)
    ensures (r + OptSeq(Integrate(servers[i], parse))) + Integrations(servers[i + 1..], parse) == Integrations(servers, parse)
  {
    IntegrationsUnfold(servers, i, parse);
    AppendAssociative(r, OptSeq(Integrate(servers[i], parse)), Integrations(servers[i + 1..], parse));
  }

  /** One unfolding of `Integrations` on the suffix from `i`. */
  lemma IntegrationsUnfold(servers: seq<McpServer>, i: nat, parse: string -> Option<Json>)
    requires i < |servers|
    ensures Integrations(servers[i..], parse) == OptSeq(Integrate(servers[i], parse)) + Integrations(servers[i + 1..], parse)
  {
    assert servers[i..][1..] == servers[i + 1..];
  }

  lemma IntegrationsDone(servers: seq<McpServer>, r: seq<Integration>, parse: string -> Option<Json>)
    requires r + Integrations(servers[|servers|..], parse) == Integrations(servers, parse)
    ensures r == Integrations(servers, parse)
  {
    assert servers[|servers|..] == [];
    assert r + [] == r;
  }

  /** The integration list follows the server list: each server contributes its own
      entry, or nothing, in order. */
  lemma {:induction false} IntegrationsDistribute(a: seq<McpServer>, b: seq<McpServer>, parse: string -> Option<Json>)
    ensures Integrations(a + b, parse) == Integrations(a, parse) + Integrations(b, parse)
    decreases |a|
  {
    if a == [] {
      assert a + b == b;
    } else {
      assert (a + b)[1..] == a[1..] + b;
      IntegrationsDistribute(a[1..], b, parse);
    }
  }

  // ---------------------------------------------------------------- input conversion

  /** The text parts of a multimodal content list, space-joined. */
  function PartsText(parts: seq<Part>): string {
    Join(" ", TextsOf(parts))
  }

  function TextsOf(parts: seq<Part>): (r: seq<string>)
    ensures |r| <= |parts|
  {
    if parts == [] then []
    else (if parts[0].TextPart? then [parts[0].text] else []) + TextsOf(parts[1..])
  }

  /** Python's `str()` of a message's content inside the tool-result f-string;
      `reprParts` renders a list. */
  function ContentString(c: WireContent, reprParts: seq<Part> -> string): string {
    match c
    case Absent => ""
    case Null => "None"
    case Str(s) => s
    case PartList(ps) => reprParts(ps)
  }

  const ToolResultPrefix := "[Tool result for "

  /** One message as an `input` entry, or `None` when its content comes out empty. */
  function Convert(m: WireMessage, reprParts: seq<Part> -> string): (r: Option<LmMessage>)
    ensures r.Some? ==> r.value.content != ""
    ensures HasRole(m, "tool") ==>
      r == Some(LmMessage("user", ToolResultPrefix + m.toolCallId.GetOr("tool") + "]: " + ContentString(m.content, reprParts)))
    ensures !HasRole(m, "tool") && r.Some? ==> r.value.role == m.role.GetOr("user")
    ensures !HasRole(m, "tool") && m.content.Str? ==>
      (r.Some? <==> m.content.s != "") && (r.Some? ==> r.value.content == m.content.s)
    ensures !HasRole(m, "tool") && m.content.PartList? ==>
      (r.Some? <==> PartsText(m.content.parts) != "") && (r.Some? ==> r.value.content == PartsText(m.content.parts))
    ensures !HasRole(m, "tool") && (m.content.Absent? || m.content.Null?) ==> r.None?
  {
    var role := m.role.GetOr("user");
    if role == "tool" then
      Some(LmMessage("user", ToolResultPrefix + m.toolCallId.GetOr("tool") + "]: " + ContentString(m.content, reprParts)))
    else
      match m.content
      case PartList(ps) => var t := PartsText(ps); if t != "" then Some(LmMessage(role, t)) else None
      case Str(s) => if s != "" then Some(LmMessage(role, s)) else None
      case _ => None
  }

  function LmInput(ms: seq<WireMessage>, reprParts: seq<Part> -> string): (r: seq<LmMessage>)
    ensures |r| <= |ms|
    ensures forall i :: 0 <= i < |r| ==> r[i].content != ""
  {
    if ms == [] then [] else OptSeq(Convert(ms[0], reprParts)) + LmInput(ms[1..], reprParts)
  }

  method MessagesToLMStudioInput(ms: seq<WireMessage>, reprParts: seq<Part> -> string) returns (r: seq<LmMessage>)
    ensures r == LmInput(ms, reprParts)
  {
    r := [];
    for i := 0 to |ms|
      invariant r + LmInput(ms[i..], reprParts) == LmInput(ms, reprParts)
    {
      LmInputStep(ms, i, r, reprParts);
      ghost var r0 := r;
      var m := Convert(ms[i], reprParts);
      if m.Some? {
        r := r + [m.value];
      }
      assert r == r0 + OptSeq(m);
    }
    assert ms[|ms|..] == [];
    assert r + [] == r;
  }

  /** The conversion loop advances by one message. */
  lemma LmInputStep(ms: seq<WireMessage>, i: nat, r: seq<LmMessage>, reprParts: seq<Part> -> string)
    requires i < |ms|
    ensures r + LmInput(ms[i..], reprParts) == (r + OptSeq(Convert(ms[i], reprParts))) + LmInput(ms[i + 1..], reprParts)
  {
    assert ms[i..][0] == ms[i] && ms[i..][1..] == ms[i + 1..];
    AppendAssociative(r, OptSeq(Convert(ms[i], reprParts)), LmInput(ms[i + 1..], reprParts));
  }

  /** Conversion keeps relative order: each message contributes its own entry or
      nothing, and a tool message always contributes one. */
  lemma {:induction false} LmInputDistributes(a: seq<WireMessage>, b: seq<WireMessage>, reprParts: seq<Part> -> string)
    ensures LmInput(a + b, reprParts) == LmInput(a, reprParts) + LmInput(b, reprParts)
    decreases |a|
  {
    if a == [] {
      assert a + b == b;
    } else {
      assert (a + b)[1..] == a[1..] + b;
      LmInputDistributes(a[1..], b, reprParts);
    }
  }
}
