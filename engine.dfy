/** The conversation engine of the agent entity: it builds the OpenAI-style message
    list from the chat log, then drives at most ten backend rounds, through the
    OpenAI-compatible streaming endpoint or through LM Studio's native endpoint, while
    the chat log still has tool calls waiting for their results. */
module Engine {
  import opened Wrappers
  import opened Json
  import opened Wire
  import opened ToolFormat
  import Text
  import T = Translator
  import S = Stream
  import H = History
  import LM = LMStudio

  const MaxToolIterations := 10

  const CommunicationError := "Error communicating with LLM server"
  const ProcessingError := "Error processing LLM response"
  const LMStudioError := "Error communicating with LM Studio"
  const UnsupportedAttachment := "unsupported_attachment_type"

  // ---------------------------------------------------------------- translation

  /** Every content translated in order by `tr`, the dropped ones left out; the first
      failure fails the whole list. */
  function TranslateEach<C, M, E>(contents: seq<C>, tr: C -> Result<Option<M>, E>): (r: Result<seq<M>, E>)
    ensures r.Success? ==> |r.value| <= |contents|
  {
    if contents == [] then Success([])
    else
      match tr(contents[0])
      case Failure(e) => Failure(e)
      case Success(m) =>
        match TranslateEach(contents[1..], tr)
        case Failure(e) => Failure(e)
        case Success(ms) => Success(OptSeq(m) + ms)
  }

  /** The chat log as the engine translates it, keeping only the truthy results. */
  function TranslateAll(contents: seq<T.ChatContent>, dumps: Json -> string, readB64: string -> string)
    : Result<seq<WireMessage>, T.TranslateError>
  {
    TranslateEach(contents, c => T.Translate(c, dumps, readB64))
  }

  /** The list fails exactly when some content fails to translate. */
  lemma {:induction false} TranslateEachFailsIff<C, M, E>(contents: seq<C>, tr: C -> Result<Option<M>, E>)
    ensures TranslateEach(contents, tr).Failure? <==> exists i :: 0 <= i < |contents| && tr(contents[i]).Failure?
    decreases |contents|
  {
    if contents != [] {
      TranslateEachFailsIff(contents[1..], tr);
      if tr(contents[0]).Success? {
        forall i | 1 <= i < |contents| ensures contents[i] == contents[1..][i - 1] {}
        if exists i :: 0 <= i < |contents| && tr(contents[i]).Failure? {
          var i :| 0 <= i < |contents| && tr(contents[i]).Failure?;
          assert contents[1..][i - 1] == contents[i];
        }
      }
    }
  }

  /** Translation keeps the order of the chat log: it distributes over concatenation. */
  lemma {:induction false} TranslateEachDistributes<C, M, E>(a: seq<C>, b: seq<C>, tr: C -> Result<Option<M>, E>)
    requires TranslateEach(a, tr).Success? && TranslateEach(b, tr).Success?
    ensures TranslateEach(a + b, tr) == Success(TranslateEach(a, tr).value + TranslateEach(b, tr).value)
    decreases |a|
  {
    if a == [] {
      assert a + b == b;
      assert [] + TranslateEach(b, tr).value == TranslateEach(b, tr).value;
    } else {
      TranslateEachDistributes(a[1..], b, tr);
      DistributesStep(a, b, tr);
    }
  }

  /** The inductive step: from the claim for the tail of `a` to the claim for `a`. */
  lemma DistributesStep<C, M, E>(a: seq<C>, b: seq<C>, tr: C -> Result<Option<M>, E>)
    requires a != [] && TranslateEach(a, tr).Success? && TranslateEach(b, tr).Success?
    requires TranslateEach(a[1..] + b, tr) == Success(TranslateEach(a[1..], tr).value + TranslateEach(b, tr).value)
    ensures TranslateEach(a + b, tr) == Success(TranslateEach(a, tr).value + TranslateEach(b, tr).value)
  {
    TailOfAppend(a, b);
    TranslateEachUnfold(a, tr);
    TranslateEachUnfold(a + b, tr);
    AppendAssociative(OptSeq(tr(a[0]).value), TranslateEach(a[1..], tr).value, TranslateEach(b, tr).value);
  }

  lemma TailOfAppend<X>(a: seq<X>, b: seq<X>)
    requires a != []
    ensures (a + b)[0] == a[0] && (a + b)[1..] == a[1..] + b
  {
  }

  /** One unfolding of `TranslateEach` on a list that translates. */
  lemma TranslateEachUnfold<C, M, E>(s: seq<C>, tr: C -> Result<Option<M>, E>)
    requires s != [] && TranslateEach(s, tr).Success?
    ensures tr(s[0]).Success? && TranslateEach(s[1..], tr).Success?
    ensures TranslateEach(s, tr).value == OptSeq(tr(s[0]).value) + TranslateEach(s[1..], tr).value
  {
  }

  /** The translation loop over a list of contents. */
  method TranslateContents(contents: seq<T.ChatContent>, dumps: Json -> string, readB64: string -> string)
    returns (r: Result<seq<WireMessage>, T.TranslateError>)
    ensures r == TranslateAll(contents, dumps, readB64)
  {
    var out: seq<WireMessage> := [];
    assert contents[0..] == contents;
    ThenEmpty(TranslateAll(contents, dumps, readB64));
    for i := 0 to |contents|
      invariant TranslateAll(contents, dumps, readB64) == Then(out, TranslateAll(contents[i..], dumps, readB64))
    {
      var m := T.ContentToOpenAIMessage(contents[i], dumps, readB64);
      TranslateStep(contents, i, out, dumps, readB64);
      if m.Failure? {
        return Failure(m.error);
      }
      out := out + OptSeq(m.value);
    }
    assert contents[|contents|..] == [];
    assert out + [] == out;
    r := Success(out);
  }

  function Then(out: seq<WireMessage>, r: Result<seq<WireMessage>, T.TranslateError>): Result<seq<WireMessage>, T.TranslateError> {
    match r
    case Failure(e) => Failure(e)
    case Success(ms) => Success(out + ms)
  }

  lemma ThenEmpty(r: Result<seq<WireMessage>, T.TranslateError>)
    ensures Then([], r) == r
  {
    if r.Success? {
      assert [] + r.value == r.value;
    }
  }

  lemma TranslateStep(contents: seq<T.ChatContent>, i: nat, out: seq<WireMessage>, dumps: Json -> string, readB64: string -> string)
    requires i < |contents|
    requires TranslateAll(contents, dumps, readB64) == Then(out, TranslateAll(contents[i..], dumps, readB64))
    ensures T.Translate(contents[i], dumps, readB64).Failure? ==>
      TranslateAll(contents, dumps, readB64) == Failure(T.Translate(contents[i], dumps, readB64).error)
    ensures T.Translate(contents[i], dumps, readB64).Success? ==>
      TranslateAll(contents, dumps, readB64)
        == Then(out + OptSeq(T.Translate(contents[i], dumps, readB64).value), TranslateAll(contents[i + 1..], dumps, readB64))
  {
    assert contents[i..][1..] == contents[i + 1..];
    if T.Translate(contents[i], dumps, readB64).Success? {
      var m := T.Translate(contents[i], dumps, readB64).value;
      var rest := TranslateAll(contents[i + 1..], dumps, readB64);
      if rest.Success? {
        assert out + (OptSeq(m) + rest.value) == (out + OptSeq(m)) + rest.value;
      }
    }
  }

  /** The message list of a turn: the translated chat log, trimmed to the configured
      number of rounds. */
  method BuildMessages(contents: seq<T.ChatContent>, maxHistory: int, dumps: Json -> string, readB64: string -> string)
    returns (r: Result<seq<WireMessage>, T.TranslateError>)
    ensures TranslateAll(contents, dumps, readB64).Failure? ==> r == Failure(TranslateAll(contents, dumps, readB64).error)
    ensures TranslateAll(contents, dumps, readB64).Success? ==>
      r == Success(H.TrimHistory(TranslateAll(contents, dumps, readB64).value, maxHistory))
  {
    var raw := TranslateContents(contents, dumps, readB64);
    if raw.Failure? {
      return Failure(raw.error);
    }
    r := Success(H.TrimHistory(raw.value, maxHistory));
  }

  /** The tool list: `None` without an LLM API, otherwise every tool formatted in order. */
  method FormatTools<P>(apiTools: Option<seq<Tool<P>>>, convert: P -> Schema) returns (r: Option<seq<ToolSpec>>)
    ensures apiTools.None? <==> r.None?
    ensures apiTools.Some? ==>
      && |r.value| == |apiTools.value|
      && (forall i :: 0 <= i < |apiTools.value| ==> FormatOf(apiTools.value[i], convert, r.value[i]))
  {
    if apiTools.None? {
      return None;
    }
    var tools := apiTools.value;
    var specs: seq<ToolSpec> := [];
    for i := 0 to |tools|
      invariant |specs| == i
      invariant forall j :: 0 <= j < i ==> FormatOf(tools[j], convert, specs[j])
    {
      var spec := FormatTool(tools[i], convert);
      specs := specs + [spec];
    }
    r := Some(specs);
  }

  // ---------------------------------------------------------------- the tool loops

  /** The message list of the turn, extended in place by every round. */
  class Conversation {
    var messages: seq<WireMessage>

    constructor(messages: seq<WireMessage>)
      ensures this.messages == messages
    {
      this.messages := messages;
    }

    method Extend(more: seq<WireMessage>)
      modifies this
      ensures messages == old(messages) + more
    {
      messages := messages + more;
    }
  }

  /** The host chat log, as seen by the engine: the contents it records for the deltas
      of round `i`, and whether tool results are still missing after round `i`. */
  datatype ChatLog = ChatLog(addDeltas: (nat, seq<S.Delta>) -> seq<T.ChatContent>, unresolved: nat -> bool)

  datatype OpenAIRequest = OpenAIRequest(
    model: string,
    messages: seq<WireMessage>,
    temperature: real,
    parallelToolCalls: bool,
    tools: Option<seq<ToolSpec>>,
    integrations: Option<seq<LM.Integration>>)

  predicate IsPrefix(a: seq<WireMessage>, b: seq<WireMessage>) {
    |a| <= |b| && b[..|a|] == a
  }

  /** The contents a round records and their translation. */
  function RoundMessages(log: ChatLog, i: nat, deltas: seq<S.Delta>, dumps: Json -> string, readB64: string -> string)
    : Result<seq<WireMessage>, T.TranslateError>
  {
    TranslateAll(log.addDeltas(i, deltas), dumps, readB64)
  }

  /** The outcome of one streaming round on the message list `messages`: request
      number `i`, the stream transformed, recorded in the chat log and translated back.
      A failure leaves the list as it was; a success only appends to it. */
  function OpenAIStep(messages: seq<WireMessage>, i: nat, request: OpenAIRequest, env: S.StreamEnv,
                      create: (nat, OpenAIRequest) -> Option<seq<S.Chunk>>, log: ChatLog,
                      dumps: Json -> string, readB64: string -> string)
    : (r: (Result<(), string>, seq<WireMessage>))
    ensures IsPrefix(messages, r.1)
    ensures r.0.Failure? ==> r.1 == messages && (r.0.error == CommunicationError || r.0.error == ProcessingError)
  {
    var chunks := create(i, request.(messages := messages));
    if chunks.None? then (Failure(CommunicationError), messages)
    else
      var aggregated := S.Aggregate(S.Init, chunks.value, env);
      if aggregated.1 then (Failure(ProcessingError), messages)
      else
        match TranslateAll(log.addDeltas(i, aggregated.0), dumps, readB64)
        case Failure(_) => (Failure(ProcessingError), messages)
        case Success(added) => (Success(()), messages + added)
  }

  /** The three ways a streaming round ends. */
  lemma OpenAIStepCases(messages: seq<WireMessage>, i: nat, request: OpenAIRequest, env: S.StreamEnv,
                        create: (nat, OpenAIRequest) -> Option<seq<S.Chunk>>, log: ChatLog,
                        dumps: Json -> string, readB64: string -> string)
    ensures var chunks := create(i, request.(messages := messages));
      var r := OpenAIStep(messages, i, request, env, create, log, dumps, readB64);
      && (chunks.None? ==> r == (Failure(CommunicationError), messages))
      && (chunks.Some? && S.Aggregate(S.Init, chunks.value, env).1 ==> r == (Failure(ProcessingError), messages))
      && (chunks.Some? && !S.Aggregate(S.Init, chunks.value, env).1 ==>
            var added := TranslateAll(log.addDeltas(i, S.Aggregate(S.Init, chunks.value, env).0), dumps, readB64);
            && (added.Failure? ==> r == (Failure(ProcessingError), messages))
            && (added.Success? ==> r == (Success(()), messages + added.value)))
  {
  }

  /** One streaming round, extending the conversation in place. */
  method OpenAIRound(conv: Conversation, i: nat, request: OpenAIRequest, env: S.StreamEnv,
                     create: (nat, OpenAIRequest) -> Option<seq<S.Chunk>>, log: ChatLog,
                     dumps: Json -> string, readB64: string -> string)
    returns (r: Result<(), string>)
    modifies conv
    ensures (r, conv.messages) == OpenAIStep(old(conv.messages), i, request, env, create, log, dumps, readB64)
  {
    var chunks := create(i, request.(messages := conv.messages));
    if chunks.None? {
      return Failure(CommunicationError);
    }
    var deltas, failed := S.TransformOpenAIStream(chunks.value, env);
    if failed {
      return Failure(ProcessingError);
    }
    var added := TranslateContents(log.addDeltas(i, deltas), dumps, readB64);
    if added.Failure? {
      return Failure(ProcessingError);
    }
    conv.Extend(added.value);
    r := Success(());
  }

  /** The MCP integrations of the stored servers (`LMStudio.Integrations`), `None` when
      there are none: both backends send the list only when it is non-empty. */
  method IntegrationsOrNone(servers: seq<LM.McpServer>, parse: string -> Option<Json>)
    returns (r: Option<seq<LM.Integration>>)
    ensures r.Some? ==> r.value != [] && |r.value| <= |servers|
  {
    var built := LM.BuildMcpIntegrations(servers, parse);
    r := if built != [] then Some(built) else None;
  }

  lemma PrefixTransitive(a: seq<WireMessage>, b: seq<WireMessage>, c: seq<WireMessage>)
    requires IsPrefix(a, b) && IsPrefix(b, c)
    ensures IsPrefix(a, c)
  {
    assert c[..|a|] == c[..|b|][..|a|];
  }

  /** One pass of the streaming loop's body: a round, then the test that ends the loop
      on a failure or when no tool result is left to answer. */
  method OpenAIIteration(conv: Conversation, i: nat, request: OpenAIRequest, env: S.StreamEnv,
                         create: (nat, OpenAIRequest) -> Option<seq<S.Chunk>>, log: ChatLog,
                         dumps: Json -> string, readB64: string -> string)
    returns (r: Result<(), string>, done: bool)
    modifies conv
    ensures IsPrefix(old(conv.messages), conv.messages)
    ensures r.Failure? ==> done && (r.error == CommunicationError || r.error == ProcessingError)
    ensures r.Success? ==> done == !log.unresolved(i)
  {
    r := OpenAIRound(conv, i, request, env, create, log, dumps, readB64);
    done := r.Failure? || !log.unresolved(i);
  }

  /** The OpenAI-compatible tool loop: at most ten rounds; it stops early once the chat
      log has no tool call waiting for a result, and on the first failure. The message
      list is only ever extended. */
  method HandleChatOpenAI(conv: Conversation, model: string, tools: Option<seq<ToolSpec>>, temperature: real,
                          parallelToolCalls: bool, env: S.StreamEnv, integrations: Option<seq<LM.Integration>>,
                          create: (nat, OpenAIRequest) -> Option<seq<S.Chunk>>, log: ChatLog,
                          dumps: Json -> string, readB64: string -> string)
    returns (calls: nat, r: Result<(), string>)
    modifies conv
    ensures 1 <= calls <= MaxToolIterations
    ensures IsPrefix(old(conv.messages), conv.messages)
    ensures forall k :: 0 <= k < calls - 1 ==> log.unresolved(k)
    ensures r.Success? && calls < MaxToolIterations ==> !log.unresolved(calls - 1)
    ensures r.Failure? ==> r.error == CommunicationError || r.error == ProcessingError
  {
    var request := OpenAIRequest(model, [], temperature, parallelToolCalls,
                                 if LM.NonEmptyList(tools) then tools else None,
                                 integrations);
    calls := 0;
    while calls < MaxToolIterations
      invariant calls <= MaxToolIterations
      invariant IsPrefix(old(conv.messages), conv.messages)
      invariant forall k :: 0 <= k < calls ==> log.unresolved(k)
    {
      ghost var before := conv.messages;
      var round, done := OpenAIIteration(conv, calls, request, env, create, log, dumps, readB64);
      PrefixTransitive(old(conv.messages), before, conv.messages);
      calls := calls + 1;
      if done {
        return calls, round;
      }
    }
    r := Success(());
  }

  /** The LM Studio side of the host: `chat` answers request `i` (see
      `LMStudioNativeClient.Chat`) and `decode` reads the `output` list of a response. */
  datatype LMStudioBackend = LMStudioBackend(
    baseUrl: string,
    apiKey: Option<string>,
    post: (nat, LM.HttpRequest) -> Option<LM.HttpResponse>,
    decode: Json -> Option<seq<LM.OutputItem>>)

  /** The assistant text of a native response, after the optional emoji filter. */
  function ShownText(text: string, env: S.StreamEnv): string {
    if env.stripEmojis && text != "" then env.demoji(text) else text
  }

  /** The outcome of one native round on the message list `messages`, given the
      client's answer. A failed request is a communication error; the response's message
      text (after the optional emoji filter) is recorded as one assistant delta and its
      translation appended, and a failing translation is raised as it is. A round with
      no text records nothing. */
  function LMStudioStep(messages: seq<WireMessage>, i: nat, response: Result<Json, LM.ChatError>, env: S.StreamEnv,
                        decode: Json -> Option<seq<LM.OutputItem>>, log: ChatLog,
                        dumps: Json -> string, readB64: string -> string)
    : (r: (Result<(), string>, seq<WireMessage>))
    ensures IsPrefix(messages, r.1)
    ensures r.0.Failure? ==> r.1 == messages && (r.0.error == LMStudioError || r.0.error == UnsupportedAttachment)
    ensures response.Failure? ==> r == (Failure(LMStudioError), messages)
    ensures response.Success? && decode(response.value).None? ==> r == (Success(()), messages)
    ensures response.Success? ==>
      var text := ShownText(Text.Join("\n", LM.MessageTexts(decode(response.value).GetOr([]))), env);
      var added := TranslateAll(log.addDeltas(i, [S.Delta(Some("assistant"), Some(text), None)]), dumps, readB64);
      && (text == "" ==> r == (Success(()), messages))
      && (text != "" && added.Success? ==> r == (Success(()), messages + added.value))
      && (text != "" && added.Failure? ==> r == (Failure(UnsupportedAttachment), messages))
  {
    if response.Failure? then (Failure(LMStudioError), messages)
    else
      var text := ShownText(Text.Join("\n", LM.MessageTexts(decode(response.value).GetOr([]))), env);
      if text == "" then (Success(()), messages)
      else
        match TranslateAll(log.addDeltas(i, [S.Delta(Some("assistant"), Some(text), None)]), dumps, readB64)
        case Failure(_) => (Failure(UnsupportedAttachment), messages)
        case Success(added) => (Success(()), messages + added)
  }

  /** One native round, extending the conversation in place. The request carries the
      whole current list, converted to the native input. */
  method LMStudioRound(conv: Conversation, i: nat, client: LM.LMStudioNativeClient, model: string,
                       integrations: Option<seq<LM.Integration>>, tools: Option<seq<ToolSpec>>,
                       temperature: real, contextLength: int, env: S.StreamEnv, backend: LMStudioBackend,
                       log: ChatLog, parse: string -> Option<Json>, dumps: Json -> string, readB64: string -> string,
                       reprParts: seq<Part> -> string)
    returns (sent: LM.HttpRequest, response: Result<Json, LM.ChatError>, r: Result<(), string>)
    modifies conv
    ensures sent.url == client.endpoint && sent.payload.input == LM.LmInput(old(conv.messages), reprParts)
    ensures backend.post(i, sent).None? ==> response.Failure?
    ensures (r, conv.messages) == LMStudioStep(old(conv.messages), i, response, env, backend.decode, log, dumps, readB64)
  {
    sent, response := client.Chat(model, conv.messages, integrations, tools, temperature, contextLength,
                                  reprParts, req => backend.post(i, req), parse);
    if response.Failure? {
      return sent, response, Failure(LMStudioError);
    }
    var text, resolved := LM.ParseLMStudioResponse(backend.decode(response.value));
    text := ShownText(text, env);
    if text != "" {
      var added := TranslateContents(log.addDeltas(i, [S.Delta(Some("assistant"), Some(text), None)]), dumps, readB64);
      if added.Failure? {
        return sent, response, Failure(UnsupportedAttachment);
      }
      conv.Extend(added.value);
    }
    r := Success(());
  }

  /** One pass of the native loop's body, ending the loop as the streaming one does. */
  method LMStudioIteration(conv: Conversation, i: nat, client: LM.LMStudioNativeClient, model: string,
                           integrations: Option<seq<LM.Integration>>, tools: Option<seq<ToolSpec>>,
                           temperature: real, contextLength: int, env: S.StreamEnv, backend: LMStudioBackend,
                           log: ChatLog, parse: string -> Option<Json>, dumps: Json -> string,
                           readB64: string -> string, reprParts: seq<Part> -> string)
    returns (r: Result<(), string>, done: bool)
    modifies conv
    ensures IsPrefix(old(conv.messages), conv.messages)
    ensures r.Failure? ==> done && (r.error == LMStudioError || r.error == UnsupportedAttachment)
    ensures r.Success? ==> done == !log.unresolved(i)
  {
    var sent, response;
    sent, response, r := LMStudioRound(conv, i, client, model, integrations, tools, temperature, contextLength,
                                       env, backend, log, parse, dumps, readB64, reprParts);
    done := r.Failure? || !log.unresolved(i);
  }

  /** The native tool loop: the same bound and stopping rule as the streaming loop. */
  method HandleChatLMStudio(conv: Conversation, model: string, tools: Option<seq<ToolSpec>>, temperature: real,
                            contextLength: int, env: S.StreamEnv, integrations: Option<seq<LM.Integration>>,
                            backend: LMStudioBackend, log: ChatLog, parse: string -> Option<Json>,
                            dumps: Json -> string, readB64: string -> string, reprParts: seq<Part> -> string)
    returns (calls: nat, r: Result<(), string>)
    modifies conv
    ensures 1 <= calls <= MaxToolIterations
    ensures IsPrefix(old(conv.messages), conv.messages)
    ensures forall k :: 0 <= k < calls - 1 ==> log.unresolved(k)
    ensures r.Success? && calls < MaxToolIterations ==> !log.unresolved(calls - 1)
    ensures r.Failure? ==> r.error == LMStudioError || r.error == UnsupportedAttachment
  {
    var client := new LM.LMStudioNativeClient(backend.baseUrl, backend.apiKey.GetOr(""));
    var lmTools := if LM.NonEmptyList(tools) then tools else None;
    calls := 0;
    while calls < MaxToolIterations
      invariant calls <= MaxToolIterations
      invariant IsPrefix(old(conv.messages), conv.messages)
      invariant forall k :: 0 <= k < calls ==> log.unresolved(k)
    {
      ghost var before := conv.messages;
      var round, done := LMStudioIteration(conv, calls, client, model, integrations, lmTools, temperature,
                                           contextLength, env, backend, log, parse, dumps, readB64, reprParts);
      PrefixTransitive(old(conv.messages), before, conv.messages);
      calls := calls + 1;
      if done {
        return calls, round;
      }
    }
    r := Success(());
  }

  /** The agent options of a subentry, with their defaults already applied. */
  datatype AgentOptions = AgentOptions(
    model: string,
    stripEmojis: bool,
    temperature: real,
    maxHistory: int,
    parallelToolCalls: bool,
    contextLength: int,
    mcpServers: seq<LM.McpServer>,
    useLMStudio: bool)

  /** The entry point of a turn: build the tools and the trimmed message list, then run
      the loop of the configured backend on them. A chat log that does not translate
      fails the turn before any backend call. `start` is the list the backend starts
      from and `final` the list it leaves; `env.parse` is `json.loads` for the stream,
      the MCP headers and the native responses alike. */
  method AsyncHandleChatLog<P>(options: AgentOptions, apiTools: Option<seq<Tool<P>>>, convert: P -> Schema,
                               contents: seq<T.ChatContent>, env: S.StreamEnv,
                               create: (nat, OpenAIRequest) -> Option<seq<S.Chunk>>, backend: LMStudioBackend,
                               log: ChatLog, dumps: Json -> string, readB64: string -> string,
                               reprParts: seq<Part> -> string)
    returns (calls: nat, r: Result<(), string>, tools: Option<seq<ToolSpec>>,
             start: seq<WireMessage>, final: seq<WireMessage>)
    ensures apiTools.None? <==> tools.None?
    ensures apiTools.Some? ==>
      && |tools.value| == |apiTools.value|
      && (forall i :: 0 <= i < |apiTools.value| ==> FormatOf(apiTools.value[i], convert, tools.value[i]))
    ensures TranslateAll(contents, dumps, readB64).Failure? ==> calls == 0 && r == Failure(UnsupportedAttachment)
    ensures TranslateAll(contents, dumps, readB64).Success? ==>
      && 1 <= calls <= MaxToolIterations
      && start == H.TrimHistory(TranslateAll(contents, dumps, readB64).value, options.maxHistory)
      && IsPrefix(start, final)
    ensures TranslateAll(contents, dumps, readB64).Success? && r.Failure? && options.useLMStudio ==>
      r.error == LMStudioError || r.error == UnsupportedAttachment
    ensures TranslateAll(contents, dumps, readB64).Success? && r.Failure? && !options.useLMStudio ==>
      r.error == CommunicationError || r.error == ProcessingError
    ensures r.Success? ==> 1 <= calls && (calls < MaxToolIterations ==> !log.unresolved(calls - 1))
  {
    tools := FormatTools(apiTools, convert);
    var messages := BuildMessages(contents, options.maxHistory, dumps, readB64);
    if messages.Failure? {
      return 0, Failure(UnsupportedAttachment), tools, [], [];
    }
    start := messages.value;
    var integrations := IntegrationsOrNone(options.mcpServers, env.parse);
    var conv := new Conversation(start);
    var turnEnv := env.(stripEmojis := options.stripEmojis);
    if options.useLMStudio {
      calls, r := HandleChatLMStudio(conv, options.model, tools, options.temperature, options.contextLength,
                                     turnEnv, integrations, backend, log, env.parse, dumps, readB64, reprParts);
    } else {
      calls, r := HandleChatOpenAI(conv, options.model, tools, options.temperature, options.parallelToolCalls,
                                   turnEnv, integrations, create, log, dumps, readB64);
    }
    final := conv.messages;
  }
}
