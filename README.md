# LLM Assistant: a Dafny model of the conversation engine

This project models the core of the `llm_assistant` Home Assistant integration and of its
Wyoming text-to-speech proxy:

- the conversation engine of the agent entity: tool formatting, translation of chat-log
  content into OpenAI messages, the streaming-delta aggregator, the history trimmer, and
  the bounded tool loops of both backends;
- the LM Studio native adapter: endpoint normalisation, request and header assembly,
  status check, response parsing, MCP integration building, and input conversion;
- the model-name stripping and LLM-API sanitising of the agent config flow;
- the PCM chunking, voice selection and voice-language mapping of the Wyoming proxy.

Each source file has one module: `ToolFormat`, `Translator`, `Stream`, `History` and `Engine`
model `entity.py`; `LMStudio` models `lmstudio.py`; `ConfigFlow` models `config_flow.py`;
`WyomingProxy` models `server.py`. Four support modules hold shared values:

- `Wrappers` holds `Option` and `Result`.
- `Text` holds the Python `str` operations the code relies on.
- `Json` is an abstract JSON value.
- `Wire` holds OpenAI message parameters.

The source mutates state in several places, and the model keeps that form:

- The stream aggregator is a method with a loop over chunks. It is proved equal to a fold
  (`Stream.Aggregate`) over an explicit state record, and the properties are proved about
  that fold.
- The accumulator loops are methods proved equal to recursive specification functions.
  These are the schema-key removal, attachment parts, integrations, response parsing,
  input conversion, content translation and PCM chunking.
- The tool loops extend a `Conversation` object's message list in place.
- The config flow's `pop` on the user input is a method on a `UserInput` object.

Every call outside the modelled code becomes a function-typed parameter. This covers
`json.dumps`/`json.loads`, `demoji.replace`, base64 file reading,
`voluptuous_openapi.convert`, the HTTP clients, the chat log's
`async_add_delta_content_stream` and `unresponded_tool_results`, WAV parsing and the
voice-list fetch.

## Model

| member | source | states |
|---|---|---|
| ToolFormat.RemoveUnsupportedToolSchemaKeys | custom_components/llm_assistant/entity.py:66-69 | the schema keeps every key except `allOf`, `anyOf` and `oneOf`, each with its value unchanged |
| ToolFormat.FormatTool | custom_components/llm_assistant/entity.py:72-85 | the name is kept; the parameters are the converted schema minus the three keywords; the description is "A callable function" exactly when the tool's is missing or all whitespace, else the tool's own |
| Text.StripEmptyIffAllSpace | custom_components/llm_assistant/entity.py:82 | `s.strip()` is empty exactly when every character of `s` is Python whitespace |
| Translator.ContentToOpenAIMessage | custom_components/llm_assistant/entity.py:96-168 | the loop that builds the parts list computes `Translate`: tool result, system, user and assistant cases, `None` and the unsupported-attachment error |
| Translator.ToolResultRoundTrip | custom_components/llm_assistant/entity.py:101-116 | a tool result becomes a "tool" message with the same call id, and reading it back gives the id and the payload whenever the parser inverts the serialiser |
| Translator.EmptyTextDropped | custom_components/llm_assistant/entity.py:119-122 | a system or user message with empty text translates to `None`, attachments or not |
| Translator.UserParts | custom_components/llm_assistant/entity.py:122-147 | a user message fails exactly when some attachment's MIME type does not start with `image/`; otherwise it has one image part per attachment in order, then exactly one text part |
| Translator.AssistantAlwaysTranslated | custom_components/llm_assistant/entity.py:149-165 | an assistant message always translates; its tool calls are present exactly when there are some, and keep order, ids, names and serialised arguments |
| Translator.ImageParts | custom_components/llm_assistant/entity.py:127-138 | one image part per attachment; what each part holds is stated by `Translator.UserParts` |
| Translator.WireToolCalls | custom_components/llm_assistant/entity.py:153-164 | one wire tool call per tool call; ids, names and arguments are stated by `Translator.AssistantAlwaysTranslated` |
| Stream.AbsorbFragment | custom_components/llm_assistant/entity.py:226-242 | absorbing a fragment keeps the state well formed (order lists each key once, and exactly the keys of the pending map) and touches nothing but the pending calls and the current id and name |
| Stream.AbsorbAll | custom_components/llm_assistant/entity.py:225-242 | the same for a chunk's whole fragment list |
| Stream.FragmentGrows | custom_components/llm_assistant/entity.py:234-242 | a fragment only adds a key at the end of the order or appends to the arguments of an existing key; no entry is lost or reordered |
| Stream.AbsorbAllGrows | custom_components/llm_assistant/entity.py:225-242 | the same for a fragment list |
| Stream.InsertCall | custom_components/llm_assistant/entity.py:234-239 | a first fragment for a new key adds one entry, last in the insertion order, keeps the state well formed and grows the pending calls |
| Stream.ExtendArgs | custom_components/llm_assistant/entity.py:240-242 | a later fragment's arguments are appended to the entry of an existing key; the order is unchanged and the pending calls grow |
| Stream.ContinuationStep | custom_components/llm_assistant/entity.py:227-242 | a fragment with no id and no name extends the arguments of the entry of the current key |
| Stream.ContinuationsCons | custom_components/llm_assistant/entity.py:226 | absorbing a list of continuation fragments is absorbing the first, then the rest |
| Stream.ContinuationsAppend | custom_components/llm_assistant/entity.py:225-242 | a run of id-less fragments appends their argument texts in arrival order |
| Stream.SplitArgumentsConcatenate | custom_components/llm_assistant/entity.py:225-242 | a call whose first fragment carries id and name and whose later fragments carry neither ends as one entry for `id + name`, added last to the order, with the arguments concatenated in order |
| Stream.ContinuationChunksAggregate | custom_components/llm_assistant/entity.py:212-242 | chunks that each carry one id-less, name-less argument piece, followed by the finish chunk, yield what the finish chunk yields after the pieces are appended, concatenated, to the current entry |
| Stream.SplitCallStreamYields | custom_components/llm_assistant/entity.py:212-283 | a stream that opens a call with its id, name and first argument piece, sends the other pieces in further chunks and then finishes yields exactly one delta carrying one call with that id and name and arguments `{}` when the pieces concatenate to "", the parse of the concatenation when it parses, and raises when it does not |
| Stream.AbsorbText | custom_components/llm_assistant/entity.py:245-268 | text only touches the think flag, the pending think buffer and the visible flag, and the visible flag never goes back to false |
| Stream.AbsorbDeltaText | custom_components/llm_assistant/entity.py:245-268 | the same when the delta may have no content |
| Stream.FinalizeInOrder | custom_components/llm_assistant/entity.py:271-279 | when every argument text parses, the finished calls are one per pending key in first-seen order, each with its id and name, and empty argument text becomes `{}` |
| Stream.Finish | custom_components/llm_assistant/entity.py:270-283 | a parse failure yields nothing; a yielded chunk carries the role and content given; tool calls only with a finish reason; the chunk is yielded exactly when nothing raised and visible text has been seen, or the role is truthy, or a finish reason arrives with calls pending |
| Stream.Step | custom_components/llm_assistant/entity.py:212-283 | a chunk without choices changes nothing; otherwise `new_msg` is cleared, `seen_visible` is sticky, only a chunk while `new_msg` holds carries a role, and tool calls come only with a finish reason; a chunk is yielded exactly when it has a choice, nothing raised, and visible text has been seen so far, or it is the first chunk with a truthy role, or its finish reason arrives with calls pending (so whitespace-only text alone is not yielded) |
| Stream.Aggregate | custom_components/llm_assistant/entity.py:198-283 | at most one yielded delta per chunk |
| Stream.AggregateUnfold | custom_components/llm_assistant/entity.py:212-283 | the fold is the first step followed by the fold of the rest; a failing step ends the stream |
| Stream.AccumulateToolCalls | custom_components/llm_assistant/entity.py:225-242 | the fragment loop computes `AbsorbAll` |
| Stream.AccumulateToolCall | custom_components/llm_assistant/entity.py:226-242 | one iteration of the fragment loop, updating the dictionary in place, computes `AbsorbFragment` |
| Stream.FinishToolCalls | custom_components/llm_assistant/entity.py:271-279 | the loop over pending calls computes `Finalize` |
| Stream.ProcessChunk | custom_components/llm_assistant/entity.py:216-283 | one loop iteration computes `Step` |
| Stream.ProcessText | custom_components/llm_assistant/entity.py:245-268 | the text branch of an iteration computes `AbsorbDeltaText` |
| Stream.FinishChunk | custom_components/llm_assistant/entity.py:270-283 | the finish branch and yield rule of an iteration compute `Finish` |
| Stream.TransformOpenAIStream | custom_components/llm_assistant/entity.py:198-283 | the chunk loop computes the fold `Aggregate` from the initial state |
| Stream.RolesAfterFirstAreNone | custom_components/llm_assistant/entity.py:212-222 | from any state, no yielded delta after the first carries a role, and none does once `new_msg` is cleared |
| Stream.RoleOnlyOnFirst | custom_components/llm_assistant/entity.py:212-222 | over a whole stream only the first yielded delta can carry a role |
| Stream.NoFinishNoToolCalls | custom_components/llm_assistant/entity.py:270-281 | a stream with no finish reason yields no tool calls |
| Stream.ViewAll | custom_components/llm_assistant/entity.py:257-264 | the emoji filter maps each text to one text; what is emitted is stated against it by `Stream.EmittedTextIsShown` |
| Stream.ContentsCons | custom_components/llm_assistant/entity.py:267 | the emitted texts of a list of deltas are those of its first delta, then those of the rest |
| Stream.TextStepSubseq | custom_components/llm_assistant/entity.py:245-267 | one text step keeps the emitted texts a subsequence of the shown texts |
| Stream.FragmentSubseq | custom_components/llm_assistant/entity.py:245-267 | the same for a chunk that carries a text fragment |
| Stream.ShownVisible | custom_components/llm_assistant/entity.py:257-267 | a fragment outside a think window, other than `<think>`, is shown after the emoji filter |
| Stream.StepKeepsSubseq | custom_components/llm_assistant/entity.py:245-267 | the same stated for `Step` |
| Stream.TextsCons | custom_components/llm_assistant/entity.py:245 | the texts of a stream are those of its first chunk, then the rest |
| Stream.EmittedTextIsShown | custom_components/llm_assistant/entity.py:245-267 | from any state, the emitted texts are a subsequence of the texts outside think windows, emoji-filtered |
| Stream.ThinkTextNeverEmitted | custom_components/llm_assistant/entity.py:245-267 | over a whole stream, no text inside a think window and no `<think>` fragment is ever emitted |
| Stream.InsideWindow | custom_components/llm_assistant/entity.py:249-256 | inside a think window everything up to and including `</think>` is hidden |
| Stream.ThinkSpanHidden | custom_components/llm_assistant/entity.py:246-256 | a `<think>` … `</think>` span contributes nothing to the shown texts |
| Stream.Continuations | custom_components/llm_assistant/entity.py:226 | one continuation fragment per argument text; their effect is stated by `Stream.ContinuationsAppend` |
| Wrappers.OptSeq | custom_components/llm_assistant/entity.py:282-283 | a step yields at most one delta |
| History.AssistantCount | custom_components/llm_assistant/entity.py:295 | the number of assistant messages is at most the length, and positive only for a non-empty list |
| History.SliceFrom | custom_components/llm_assistant/entity.py:300 | Python slicing `messages[start:]`, including a negative start counted from the end and clamped at 0 |
| History.DropLeadingTool | custom_components/llm_assistant/entity.py:301-302 | the second message is deleted exactly when it has role "tool" |
| History.TrimHistory | custom_components/llm_assistant/entity.py:290-305 | as written: unchanged unless `max_rounds >= 1` and the earlier assistant turns reach `max_rounds`; otherwise the first message is kept first (the window kept is stated by `History.TrimKeepsWindow`, and the short-history behaviour by the two Findings lemmas) |
| History.TrimKeepsWindow | custom_components/llm_assistant/entity.py:290-305 | as written, when triggered on a list of at least `2*max_rounds+2` messages: the result is the first message followed by the last `2*max_rounds+1` messages, without the head of that window when it is a tool result |
| History.TrimHistoryIntended | custom_components/llm_assistant/entity.py:290-305 | corrected: unchanged when trimming is not triggered |
| History.TrimIntendedKeepsRecent | custom_components/llm_assistant/entity.py:290-305 | the corrected trimmer never grows the list, keeps the first message and a suffix of the rest, and when triggered holds at most `2*max_rounds+2` messages and keeps the latest `min(len-2, 2*max_rounds)` |
| History.DropLeadingToolKeepsTail | custom_components/llm_assistant/entity.py:300-302 | deleting a leading tool message keeps the first message and every later suffix of the tail |
| History.TrimAgreesWhenLong | custom_components/llm_assistant/entity.py:298-303 | with at least `2*max_rounds+2` messages the as-written and corrected trimmers agree |
| History.TrimDuplicatesFirst | custom_components/llm_assistant/entity.py:298-303 | as written, with exactly `2*max_rounds+1` messages the first message appears twice and the list grows by one |
| History.TrimDuplicatesFirstExample | custom_components/llm_assistant/entity.py:298-303 | `[sys, a, a]` with `max_rounds = 1` becomes `[sys, sys, a, a]` |
| History.TrimCutsShortHistory | custom_components/llm_assistant/entity.py:298-303 | as written, a triggered list shorter than `2*max_rounds+1` keeps only its last `2*max_rounds+1-len` messages after the first |
| History.TrimCutsShortHistoryExample | custom_components/llm_assistant/entity.py:298-303 | `[sys, a, a, a]` with `max_rounds = 2` becomes `[sys, a]` |
| Engine.TranslateEach | custom_components/llm_assistant/entity.py:485-489 | the kept translations are never more than the contents |
| Engine.TranslateEachFailsIff | custom_components/llm_assistant/entity.py:485-489 | translating the chat log fails exactly when some content fails to translate |
| Engine.TranslateEachDistributes | custom_components/llm_assistant/entity.py:485-489 | translation keeps the chat log's order: it distributes over concatenation |
| Engine.TranslateContents | custom_components/llm_assistant/entity.py:485-489 | the loop over the chat log computes `TranslateAll`, failing on the first failing content |
| Engine.TranslateStep | custom_components/llm_assistant/entity.py:486-489 | one iteration of that loop either fails with the content's error or appends its truthy translation |
| Engine.BuildMessages | custom_components/llm_assistant/entity.py:484-490 | the message list is the translated chat log trimmed by the trimmer as written (`History.TrimHistory`), or the translation error |
| Engine.FormatTools | custom_components/llm_assistant/entity.py:476-482 | no tools without an LLM API; otherwise one formatted tool per API tool, in order, each with the tool's name, its converted parameters without `allOf`/`anyOf`/`oneOf`, and its description or the placeholder when that is missing or blank |
| Engine.OpenAIStep | custom_components/llm_assistant/entity.py:346-367 | a streaming round only appends to the message list; a failure leaves it unchanged and is "Error communicating with LLM server" or "Error processing LLM response" |
| Engine.OpenAIRound | custom_components/llm_assistant/entity.py:346-367 | one round updates the conversation in place as `OpenAIStep` says |
| Engine.IntegrationsOrNone | custom_components/llm_assistant/entity.py:339-345 | the integrations are sent only when non-empty and are never more than the servers |
| Engine.OpenAIIteration | custom_components/llm_assistant/entity.py:346-370 | one pass of the streaming loop only extends the list; a failure ends the loop with one of the two errors; a success ends it exactly when no tool results are left |
| Engine.HandleChatOpenAI | custom_components/llm_assistant/entity.py:311-370 | between 1 and 10 backend calls; the message list is only extended; every round but the last still had unresponded tool results; a successful loop that stops early stops because none were left |
| Engine.LMStudioStep | custom_components/llm_assistant/entity.py:406-452 | a native round only appends; a failed request is "Error communicating with LM Studio" and changes nothing; when the message texts of the output, joined by newlines and emoji-filtered when configured, are empty (also when the output cannot be read) nothing is appended; otherwise the translation of one assistant delta carrying that text is appended, or an untranslatable one fails with the attachment error and changes nothing |
| Engine.LMStudioRound | custom_components/llm_assistant/entity.py:406-452 | one round sends the whole current list, converted to the native input, to the client's endpoint, and updates the conversation as `LMStudioStep` says |
| Engine.LMStudioIteration | custom_components/llm_assistant/entity.py:406-455 | one pass of the native loop only extends the list; a failure ends the loop with the LM Studio error; a success ends it exactly when no tool results are left |
| Engine.HandleChatLMStudio | custom_components/llm_assistant/entity.py:376-455 | the same bound, only-extends and stopping rule as the streaming loop |
| Engine.AsyncHandleChatLog | custom_components/llm_assistant/entity.py:461-513 | the tools are the API tools formatted one by one (`None` without an API); a chat log that does not translate fails before any backend call; otherwise the backend starts from the translated log trimmed by `History.TrimHistory` and only extends it, with between 1 and 10 backend calls, stopping early only when no tool results are left; a failure carries the LM Studio or attachment error when LM Studio is configured and the communication or processing error otherwise, so the configured backend is the one that runs |
| LMStudio.Root | custom_components/llm_assistant/lmstudio.py:43-45 | the server root is a prefix of the base URL |
| LMStudio.Endpoint | custom_components/llm_assistant/lmstudio.py:43-46 | the endpoint is the server root followed by `/api/v1/chat` |
| LMStudio.TrailingSlashIgnored | custom_components/llm_assistant/lmstudio.py:43 | a trailing slash does not change the endpoint |
| LMStudio.V1SuffixIgnored | custom_components/llm_assistant/lmstudio.py:43-46 | `root/v1` and `root` give the same endpoint, `root/api/v1/chat` |
| LMStudio.V1SlashSuffixIgnored | custom_components/llm_assistant/lmstudio.py:43-46 | `root/v1/` gives the same endpoint as `root` |
| LMStudio.LMStudioNativeClient.constructor | custom_components/llm_assistant/lmstudio.py:32-48 | the client stores the normalised endpoint and the api key |
| LMStudio.LMStudioNativeClient.Chat | custom_components/llm_assistant/lmstudio.py:50-107 | the payload always has model, converted input, temperature and context length; integrations and tools only when non-empty; the bearer header only with a non-empty key; the result is the `Outcome` of posting that request |
| LMStudio.LMStudioNativeClient.BuildRequest | custom_components/llm_assistant/lmstudio.py:68-83 | the same request, as built before it is posted |
| LMStudio.Outcome | custom_components/llm_assistant/lmstudio.py:88-106 | a transport failure exactly when there is no response; an HTTP error exactly for a status of 400 or more; success only with a status below 400 and a body that parses, to that parsed value |
| LMStudio.Exchange | custom_components/llm_assistant/lmstudio.py:88-106 | posting and checking the status computes `Outcome` |
| LMStudio.StatusMessage | custom_components/llm_assistant/lmstudio.py:101-103 | the error message starts with the fixed prefix and ends with the body verbatim |
| LMStudio.StatusMessageCarriesCode | custom_components/llm_assistant/lmstudio.py:101-103 | the message holds the decimal status code, which reads back as the code |
| Text.DecimalRoundTrip | custom_components/llm_assistant/lmstudio.py:102 | the decimal rendering of a status code reads back as the code |
| LMStudio.MessageTexts | custom_components/llm_assistant/lmstudio.py:124-128 | only non-empty message contents are kept, never more than the items |
| LMStudio.ResolvedCalls | custom_components/llm_assistant/lmstudio.py:136-148 | never more resolved calls than items |
| LMStudio.ParseLMStudioResponse | custom_components/llm_assistant/lmstudio.py:114-151 | the text is the newline-join of the message texts in order; the calls are the tool-call items in order; a missing `output` gives empty text and no calls |
| LMStudio.ParseDistributes | custom_components/llm_assistant/lmstudio.py:123-148 | parsing keeps item order: texts and calls distribute over concatenation |
| LMStudio.SilentItem | custom_components/llm_assistant/lmstudio.py:130-134 | a reasoning item or an item of unknown type contributes nothing |
| LMStudio.StrippedNamesClean | custom_components/llm_assistant/lmstudio.py:187 | the allowed names are non-empty and have no surrounding whitespace |
| Text.SplitJoin | custom_components/llm_assistant/lmstudio.py:187 | splitting on one character loses nothing: joining the pieces back gives the string |
| LMStudio.AllowedTools | custom_components/llm_assistant/lmstudio.py:186-189 | `allowed_tools` is present only with at least one name |
| LMStudio.IntegrateCases | custom_components/llm_assistant/lmstudio.py:168-216 | a missing or ephemeral type is kept exactly when label and URL strip to non-empty, with the allow-list and headers attached as computed; a plugin is kept as its stripped non-blank id; any other type is dropped |
| LMStudio.Integrations | custom_components/llm_assistant/lmstudio.py:154-218 | never more integrations than servers |
| LMStudio.BuildMcpIntegrations | custom_components/llm_assistant/lmstudio.py:154-218 | the loop computes `Integrations` |
| LMStudio.IntegrationsStep | custom_components/llm_assistant/lmstudio.py:168-216 | one iteration appends the integration of the current server |
| LMStudio.IntegrationsDone | custom_components/llm_assistant/lmstudio.py:218 | after the last server the list is complete |
| LMStudio.IntegrationsDistribute | custom_components/llm_assistant/lmstudio.py:168-216 | integrations follow server order: they distribute over concatenation |
| LMStudio.TextsOf | custom_components/llm_assistant/lmstudio.py:247-249 | never more texts than parts |
| LMStudio.Convert | custom_components/llm_assistant/lmstudio.py:236-256 | a tool message becomes a user message `[Tool result for <id>]: <content>`; others keep their role, "user" when missing; string content is kept as is exactly when non-empty; list content becomes its text parts joined by spaces, kept exactly when that is non-empty; missing content is dropped |
| LMStudio.LmInput | custom_components/llm_assistant/lmstudio.py:225-258 | no converted message has empty content, and there are never more than the messages |
| LMStudio.MessagesToLMStudioInput | custom_components/llm_assistant/lmstudio.py:225-258 | the loop computes `LmInput` |
| LMStudio.LmInputDistributes | custom_components/llm_assistant/lmstudio.py:225-258 | conversion keeps the relative order: it distributes over concatenation |
| ConfigFlow.SegmentStart | custom_components/llm_assistant/config_flow.py:390 | the start of the last path segment: no separator after it, a separator just before it |
| ConfigFlow.GgufHasNoSeparator | custom_components/llm_assistant/config_flow.py:390 | the `.gguf` suffix holds no separator |
| ConfigFlow.StripModelPathMatch | custom_components/llm_assistant/config_flow.py:387-391 | a stripped name ending in `.gguf` in any case gives its last path segment without the extension, and the result holds no `/` or `\` |
| ConfigFlow.StripModelPathNoMatch | custom_components/llm_assistant/config_flow.py:391 | any other name is returned exactly as given, surrounding whitespace included |
| ConfigFlow.StripModelPathExample | custom_components/llm_assistant/config_flow.py:387-391 | `models/x/Bar.GGUF` gives `Bar` |
| ConfigFlow.Title | custom_components/llm_assistant/config_flow.py:333-335 | the title is the model name, "Agent" when missing, passed through `StripModelPath` and followed by " – LLM Agent" |
| ConfigFlow.UserInput.SanitizeLlmApi | custom_components/llm_assistant/config_flow.py:330-331 | an empty or missing LLM-API selection is removed and nothing else changes |
| ConfigFlow.SubmitAgent | custom_components/llm_assistant/config_flow.py:322-361 | the saved data is the input without an empty LLM-API selection, every other value unchanged, and the title is as above |
| ConfigFlow.FilterApiIds | custom_components/llm_assistant/config_flow.py:366-369 | an id is kept exactly when it is stored and still available, and none is added |
| ConfigFlow.FilterApiIdsDistributes | custom_components/llm_assistant/config_flow.py:367-369 | filtering keeps the stored order: it distributes over concatenation |
| ConfigFlow.FilterApiIdsIdempotent | custom_components/llm_assistant/config_flow.py:367-369 | filtering twice is filtering once |
| WyomingProxy.ChunksPartition | docker/kokoro-rocm/wyoming/server.py:121-134 | the chunks put back together are the PCM data; there are none exactly for empty data; each chunk holds 1 to `n` bytes and all but the last exactly `n` |
| WyomingProxy.ChunkPcm | docker/kokoro-rocm/wyoming/server.py:121-133 | the offset loop computes `Chunks` |
| WyomingProxy.ChunkStep | docker/kokoro-rocm/wyoming/server.py:123-133 | one iteration appends the slice at the offset and advances by `n` |
| WyomingProxy.ChunkDone | docker/kokoro-rocm/wyoming/server.py:123 | once the offset reaches the end, the chunk list is complete |
| WyomingProxy.VoiceName | docker/kokoro-rocm/wyoming/server.py:76-78 | the request's voice name when present and non-empty, else the default |
| WyomingProxy.LangOf | docker/kokoro-rocm/wyoming/server.py:159-161 | the language is "en-us" or a value of the prefix map |
| WyomingProxy.SplitFirst | docker/kokoro-rocm/wyoming/server.py:160 | the first piece of a split is the text before the first separator |
| WyomingProxy.LangOfKnownPrefix | docker/kokoro-rocm/wyoming/server.py:159-161 | a name `<prefix>_<rest>` with a known prefix maps to that prefix's language |
| WyomingProxy.LangOfUnknownPrefix | docker/kokoro-rocm/wyoming/server.py:159-161 | a name `<prefix>_<rest>` whose prefix is not in the map gets "en-us" |
| WyomingProxy.LangOfNoUnderscore | docker/kokoro-rocm/wyoming/server.py:160-161 | a name without `_` maps to "en-us" |
| WyomingProxy.FetchVoices | docker/kokoro-rocm/wyoming/server.py:139-175 | one voice per fetched name, in order, each with its mapped language; a failed fetch gives exactly the default voice |
| WyomingProxy.ChunkEvents | docker/kokoro-rocm/wyoming/server.py:125-132 | one audio-chunk event per chunk, with the WAV parameters; that the payloads rebuild the audio is stated by `WyomingProxy.SynthesisFraming` |
| WyomingProxy.KokoroWyomingHandler.constructor | docker/kokoro-rocm/wyoming/server.py:49-62 | the Kokoro URL is stored without trailing slashes |
| WyomingProxy.KokoroWyomingHandler.HandleEvent | docker/kokoro-rocm/wyoming/server.py:64-136 | describe answers with the info event; other events and failed requests write nothing; an unreadable WAV fails; otherwise one start, the chunk events and one stop |
| WyomingProxy.SynthesisFraming | docker/kokoro-rocm/wyoming/server.py:117-135 | a synthesis writes one start first and one stop last, with chunk events between whose payloads put back together are the PCM data |

## Left out

- Network I/O is left out. That covers the OpenAI client, the LM Studio `client.post`, the aiohttp calls and the proxy's start-up wait loop. Each becomes a parameter that returns `None` on failure.
- Async generators, executors and cancellation are left out. The stream is a finite sequence of chunks.
- Home Assistant itself is left out: entity and device registration, `llm.async_get_apis`, and the chat log. The chat log becomes two oracles: the contents it records for a round's deltas, and whether tool results are still missing.
- Foreign libraries are opaque functions: `voluptuous_openapi.convert`, `demoji.replace`, `json.dumps`/`json.loads`, base64 encoding of attachment files, and the `wave` header parser.
- Dynamic typing of stored dicts is not modelled. Fields become `Option`s of their expected types. MCP headers are a string, a dict or anything else.
- `Text.Lower` folds ASCII letters only. The `re.IGNORECASE` match of `.gguf` needs nothing more.
- The `json.loads(json.dumps(t))` copy of the tool list for LM Studio is the identity on the tool values, so the model sends the list itself.
- Logging, including the debug summary of MCP tool results, is not modelled.
- The separate `kokoro_tts` integration and the Kokoro FastAPI app are not part of this model. They hold HTTP wrappers, forms and floating-point audio work.
- Engine.IntegrationsOrNone: states only that a non-empty list is sent. It does not restate that the list is `LMStudio.Integrations` of the servers, since `LMStudio.BuildMcpIntegrations` states that.
- Engine.HandleChatOpenAI: states the bound, the only-extends property and the stopping rule, but not the exact list of rounds. Each round is specified by `Engine.OpenAIRound`.
- Engine.HandleChatLMStudio: has the same limit, for the same reason. Each round is specified by `Engine.LMStudioRound`.
- WyomingProxy.SynthesisFraming: requires width and channels of at least 1. The `wave` module rejects a header with zero width or channels, and `HandleEvent` models that rejection as its error path.
- WyomingProxy.KokoroWyomingHandler.HandleEvent: the number of chunk events is given by `Chunks`, not as a closed-form count.
- Stream.Step: the role of a yielded delta is an `Option`, so a delta whose `"role"` key is present with the value `None` (custom_components/llm_assistant/entity.py:220) looks the same as one without the key.
- LMStudio.Integrate: a stored MCP server whose `"type"` is present but `None` is treated as ephemeral, because `GetOr` supplies the default. In custom_components/llm_assistant/lmstudio.py:171, `server.get` returns `None` there, which matches neither branch, so the source skips that server.
- LMStudio.ParseLMStudioResponse: a `reasoning` item whose `"content"` is present but `None` contributes nothing. In custom_components/llm_assistant/lmstudio.py:135-136 `.strip()` is called on `None` and raises, and that call at custom_components/llm_assistant/entity.py:420 is outside any `try`, so the source fails the turn.
- LMStudio.IntegrateCases: an MCP server whose `"label"`, `"url"` or `"plugin_id"` is present but `None` is skipped, because `GetOr` supplies `""`. In custom_components/llm_assistant/lmstudio.py:174-175 and 209 `.strip()` is called on `None` and raises, so the source fails before the first request.
- Engine.OpenAIStep: a stream that fails part-way through with a transport error is not modelled. Only the `json.loads` failure of a tool call's arguments raises "Error processing LLM response" (custom_components/llm_assistant/entity.py:357-366).
- Engine.LMStudioStep: an `output` value that cannot be read as a list of items is taken as no items, so nothing is appended. The source raises there.

## Findings

| source | as written | input that shows it | evidently intended | confidence | as-written member | corrected member |
|---|---|---|---|---|---|---|
| custom_components/llm_assistant/entity.py:298-303 | `drop = len - (2*max_rounds+1)` is 0 when the list holds exactly `2*max_rounds+1` messages, so `[messages[0], *messages[0:]]` repeats the first message | `max_rounds = 1`, messages `[system, assistant, assistant]` gives `[system, system, assistant, assistant]` | keep the first message once, followed by the latest messages after it | not executed | History.TrimDuplicatesFirstExample | History.TrimIntendedKeepsRecent |
| custom_components/llm_assistant/entity.py:298-303 | a triggered list shorter than `2*max_rounds+1` gives a negative `drop`, and `messages[drop:]` then counts from the end, keeping only the last `-drop` messages | `max_rounds = 2`, messages `[system, assistant, assistant, assistant]` gives `[system, assistant]` | a history within the `2*max_rounds+1` budget is kept whole | not executed | History.TrimCutsShortHistoryExample | History.TrimIntendedKeepsRecent |
