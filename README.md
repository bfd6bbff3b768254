# openMCP core, modelled in Dafny

openMCP turns OpenAPI documents into flat tool descriptors that a language
model can call, and turns such a call back into an HTTP request. The pieces
modelled here are:

- **The OpenAPI parser** (`OpenApiParser`). `load_spec` keys a document by
  `info.title`, or by the file stem when there is no title. `extract_ai_tools`
  walks every path item and HTTP method and keeps the operations marked with
  `x-ai-tool`. `_parse_endpoint` builds the endpoint record, with its
  `x-ai-*` extension, its parameters and its JSON request body.
  `convert_to_ai_format` derives the tool name and merges the parameter and
  body schemas into one object schema.
- **The tool registry and dispatcher** (`ToolsApi`). `register_tool` upserts a
  descriptor under its name and `list_tools` summarises the registry.
  `execute_tool` sorts each argument into a path, query or body bucket, fills
  the `{key}` placeholders of the URL, routes the call by HTTP method and
  wraps the answer in a `success / status_code / data` envelope.
- **Discovery** (`DiscoveryApi`). `register_spec` loads a document, then
  converts and registers every endpoint in it. `discover_tools` merges the
  tools derived from the documents with the registered ones, by name.
  `list_specs` summarises the loaded documents. `scan_directory` loads every
  `*.yaml`, `*.yml` and `*.json` file in a directory and skips the ones that
  fail.
- **The model-side text protocol** (`ToolText`), shared by both chat clients.
  A tool call is the stretch of the model's reply from its first `{` to its
  last `}`, decoded as JSON; it counts only if it has both a `tool` and a
  `parameters` key. Tools are offered to the model as lines
  `- name(k: type, ...): description`.
- **The prompt-based chat client** (`OllamaIntegration`): tool discovery, the
  tools prompt, the result message and the conversation history of `chat`.
- **The native tool-calling client** (`OllamaTools`): `Tool.to_ollama_format`,
  the registration of discovered tools by name, the execute wrapper each tool
  carries, native tool calls, and the prompt-based fallback.

Python values are modelled by `Values.Value`: `null`, booleans, integers,
strings, lists and dicts. A dict is an insertion-ordered association list
(`OrderedMap`), keyed by the hash-normal form of a Python key; `True` and `1`
are the same key. Python operations that can raise (`in`, `[]`, `.get`,
`.items()`, hashing, `**kwargs`) return `Ok(value)` or `Err(exception)`. A
Flask handler returns `Json(status, body)`, or `Unhandled(e)` for an
exception it does not catch.

The outside world is passed in as functions:
- the network (`Http.Transport`, from request to response or failure);
- the file system (`OpenApiParser.FileSystem`);
- the directory listing (`DiscoveryApi.Directories`);
- JSON decoding and encoding (`ToolText.Decoder`, `ToolText.Encoder`);
- the `ollama` client (`ToolText.ChatModel`).

Each loop of the source is a method with a `while` loop. Each method is
proved equal to a specification function defined on the prefix of the input
seen so far, and the properties are proved as lemmas about those functions.
The objects whose fields change are classes:
- `OpenApiParser.Parser`, holding `specs`;
- `ToolsApi.Registry`, holding `registered_tools`;
- `OllamaIntegration.Integration`, holding `available_tools` and `conversation_history`;
- `OllamaTools.ToolClient`, holding `tools` and `conversation`.

Behaviour worth knowing:
- **`response.ok`.** The envelope's `success` and the `raise_for_status` check
  in `register_spec` use `requests`' notion of success, which only rejects
  4xx and 5xx statuses. A 3xx answer, a 1xx answer or
  a status of 600 or more counts as success (`Http.ResponseOk`,
  `ToolsApi.EnvelopeSuccess`).
- **A document from a URL.** It is fetched by `register_spec`, not by
  `load_spec`, which reads files only. When both `spec_path` and `spec_url`
  are given, the path string is what gets fetched.
- **Uncaught exceptions.** Some failures escape the handlers and are not
  folded into a structured reply, for example a `tool_name` that cannot be
  hashed, or a `scan_directory` body that is not a dict.
- **Failed dispatch.** An exception while sending the request becomes a
  `500 {error}` reply, not a `success: false` envelope.

## Model

| member | source | states |
|---|---|---|
| OpenApiParser.AiToolOf | openmcp/core/openapi_parser.py:7-10 | The extension is built when every operation key is a string, `x-ai-description` is a string, `x-ai-tool` (default true) reads as a bool and `x-ai-category` is a string or null; it is never built without string keys, a string description or a readable flag; the extension carries that description and flag |
| OpenApiParser.ParamRecord | openmcp/core/openapi_parser.py:82-89 | A parameter record exists exactly for a dict parameter; its name and location are read from the dict, `required` defaults to false and `schema` to `{}` |
| OpenApiParser.RequestBodyOf | openmcp/core/openapi_parser.py:91-96 | No `requestBody` gives no body; a body found is the `schema` of the `application/json` entry of `requestBody.content` |
| OpenApiParser.BuildEndpoint | openmcp/core/openapi_parser.py:98-107 | The record's path is the base URL followed by the path key and its method the upper-cased key; `ai_tool` is set exactly when `x-ai-tool` is truthy, and then a missing description makes the whole record fail; `responses` must be a dict with string keys and a request-body schema must have string keys, or the record fails, as `Dict[str, Any]` demands |
| OpenApiParser.ParseEndpointSpec | openmcp/core/openapi_parser.py:69-110 | Any exception skips the operation (`None`); a truthy `x-ai-tool` without a valid string `x-ai-description` is skipped; a surviving record has the base-URL path and upper-cased method |
| OpenApiParser.BaseUrl | openmcp/core/openapi_parser.py:53-54 | No (or empty) `servers` gives the empty prefix; a first server that is a dict gives its rendered `url`, or a `KeyError` when it has none |
| OpenApiParser.OperationSpec | openmcp/core/openapi_parser.py:57-65 | A path-item key that is not one of get/post/put/delete/patch contributes nothing; a marked method contributes its parsed endpoint, if it parses; never more than one endpoint |
| OpenApiParser.PathItemSound | openmcp/core/openapi_parser.py:56-65 | Every endpoint a path item yields comes from one of its marked method operations |
| OpenApiParser.ExtractSound | openmcp/core/openapi_parser.py:48-67 | Every extracted endpoint comes from a marked method operation of some path of the document |
| OpenApiParser.YieldsShape | openmcp/core/openapi_parser.py:99-100 | An extracted endpoint's path is the base URL followed by the raw path key, and its method is the upper-cased method key |
| OpenApiParser.ExtractComplete | openmcp/core/openapi_parser.py:56-67 | When extraction succeeds, every marked operation that parses is in the result, whatever the other operations did |
| OpenApiParser.FalsyMarkerStillExtracted | openmcp/core/openapi_parser.py:60-78 | The gate is key presence: an operation whose `x-ai-tool` is falsy is still extracted, with no extension |
| OpenApiParser.ParamRecordsInOrder | openmcp/core/openapi_parser.py:81-89 | One record per declared parameter, in declaration order |
| OpenApiParser.PathPartShape | openmcp/core/openapi_parser.py:134 | The path part of a tool name contains no `/` and neither starts nor ends with `_` |
| OpenApiParser.ToolNameShape | openmcp/core/openapi_parser.py:134 | A tool name starts with the lower-cased method and `_`, kept whole; the rest has no `/` and neither starts nor ends with `_` |
| OpenApiParser.ToolNamesCollide | openmcp/core/openapi_parser.py:134 | Two different paths, `/a/b` and `/a_b`, give the same tool name `get_a_b` |
| OpenApiParser.ParamsSchemaOk | openmcp/core/openapi_parser.py:119-123 | The parameter loop raises exactly when some parameter name cannot be hashed |
| OpenApiParser.ParamsSchemaRequired | openmcp/core/openapi_parser.py:119-123 | `required` lists the names of the required parameters, in declaration order |
| OpenApiParser.ParamsSchemaProperties | openmcp/core/openapi_parser.py:119-123 | Each name in `properties` maps to the schema of the last parameter with that name |
| OpenApiParser.RequiredParamsAreProperties | openmcp/core/openapi_parser.py:119-123 | Every parameter marked required names a key of `properties` |
| OpenApiParser.PutAllGet | openmcp/core/openapi_parser.py:129 | After `properties.update(body)`, a key of the body has the body's value and every other key is unchanged |
| OpenApiParser.ConvertSpec | openmcp/core/openapi_parser.py:112-145 | The name derives from the method and the full path; `endpoint` is `{url: path, method}`; the description is the extension's when set, else the operation's; without an object body, conversion succeeds exactly when the parameter loop does, and `properties`/`required` are the parameters' own |
| OpenApiParser.ConvertMergesBody | openmcp/core/openapi_parser.py:126-131 | With an object body, body properties overwrite same-named parameter schemas, other schemas stay, and the body's `required` follows the parameters' unchanged, without de-duplication |
| OpenApiParser.EncodeDecode | openmcp/core/openapi_parser.py:133-145 | The descriptor dict reads back as the tool it encodes, and its `parameters.type` is always `object` |
| OpenApiParser.Stem | openmcp/core/openapi_parser.py:43 | The stem has no `/` and is a prefix of the file name |
| OpenApiParser.StemOfJsonFile | openmcp/core/openapi_parser.py:43 | `d/api.json` has stem `api` |
| OpenApiParser.StemOfDotFile | openmcp/core/openapi_parser.py:43 | `.hidden` is its own stem |
| OpenApiParser.SpecId | openmcp/core/openapi_parser.py:43 | The id is `info.title` when the document has a dict `info` with a title, the file stem when there is no `info`, and an exception when the document is not a dict |
| OpenApiParser.ReadSpec | openmcp/core/openapi_parser.py:29-46 | A missing file raises `OpenAPI spec not found: <path>`; a result is the loaded document and its id; a loaded document with an id always gives a result |
| OpenApiParser.Parser.constructor | openmcp/core/openapi_parser.py:26-27 | No documents are loaded |
| OpenApiParser.Parser.LoadSpec | openmcp/core/openapi_parser.py:29-46 | On success the document is stored under its id, replacing an earlier one with that id and leaving other ids alone; on failure nothing is stored |
| OpenApiParser.Parser.ExtractAiTools | openmcp/core/openapi_parser.py:48-67 | The nested loop computes exactly the extraction specification |
| OpenApiParser.Parser.ExtractPathItem | openmcp/core/openapi_parser.py:57-65 | The inner loop computes what the path item's operations contribute |
| OpenApiParser.Parser.ExtractOperation | openmcp/core/openapi_parser.py:58-65 | One pass of the inner loop: the method-key test, the marker test and the parse |
| OpenApiParser.Parser.ParseEndpoint | openmcp/core/openapi_parser.py:69-110 | The parameter loop and record construction compute exactly the endpoint specification |
| OpenApiParser.Parser.ConvertToAiFormat | openmcp/core/openapi_parser.py:112-145 | The in-place `properties`/`required` loop and body merge compute exactly the conversion specification |
| Http.RaiseForStatus | openmcp/api/discovery_api.py:28 | `raise_for_status` raises exactly for 4xx and 5xx statuses |
| Http.DecodeJson | openmcp/api/tools_api.py:69 | `response.json()` succeeds exactly when the body parses, and returns that document |
| ToolsApi.RegisterRejects | openmcp/api/tools_api.py:97-98 | A falsy body, or a dict without `name`, gets 400 `Missing tool name` and leaves the registry unchanged |
| ToolsApi.RegisterStores | openmcp/api/tools_api.py:100-106 | A named body is stored under its name, overwriting, every other name keeps its entry, and the reply is 201 with the body |
| ToolsApi.RegisterChangesOnlyOnSuccess | openmcp/api/tools_api.py:93-106 | The reply is 201 exactly when the body is a dict with a hashable `name`; then the registry is the upsert, otherwise unchanged; names stay distinct |
| ToolsApi.SummaryIsSingle | openmcp/api/tools_api.py:80-85 | A registry entry has one summary exactly when its descriptor is a dict |
| ToolsApi.ListingSummarises | openmcp/api/tools_api.py:76-90 | The listing succeeds exactly when every descriptor is a dict; then it is 200 with one entry per name, in registry order, `count` the number of names (an empty registry lists `[]` with count 0) and `''`/`{}`/`{}` defaults |
| ToolsApi.Placeholder | openmcp/api/tools_api.py:40 | A placeholder is `str(key)` between `{` and `}` |
| ToolsApi.ClassifyOk | openmcp/api/tools_api.py:39-45 | Routing raises exactly when there is an argument and the URL cannot be searched, with Python's `TypeError` |
| ToolsApi.PlaceBucket | openmcp/api/tools_api.py:41-45 | Placing an argument upserts it into its own bucket and changes no other bucket |
| ToolsApi.ClassifyBucket | openmcp/api/tools_api.py:39-45 | A key is in a bucket exactly when the first-match rule chooses that bucket, holding the argument's last value |
| ToolsApi.ClassifyPartition | openmcp/api/tools_api.py:39-45 | Every argument key lands in exactly one of path, query and body: path iff `{key}` is in the URL, else query iff GET/DELETE, else body |
| ToolsApi.ClassifyKeepsOneSide | openmcp/api/tools_api.py:42-45 | GET and DELETE never fill the body; the other methods never fill the query string |
| ToolsApi.SubstituteOk | openmcp/api/tools_api.py:48-49 | A string URL stays a string; any other URL with a path argument raises `AttributeError` |
| ToolsApi.SubstituteOne | openmcp/api/tools_api.py:49 | With one path argument whose `{key}` occurs once, that occurrence is replaced by `str(value)`, unescaped, and the text around it is kept |
| Strings.ReplaceAllPieces | openmcp/api/tools_api.py:49 | `s.replace(p, r)` joins with `r` the pieces that join with `p` back to `s`; the last piece has no `p`, and no `p` starts inside another piece even when completed by the `p` after it, so each replaced occurrence is the leftmost one left |
| Strings.ReplaceCanLeavePattern | openmcp/api/tools_api.py:49 | `'{{x}}'.replace('{x}', 'x')` is `'{x}'`: the result of a replacement can still hold the pattern |
| PathTemplates.RenderFill | openmcp/api/tools_api.py:49 | On a path template (literal text and `{name}` placeholders, none holding a brace), replacing `{name}` turns exactly the `{name}` segments into the replacement text, whatever that text is |
| PathTemplates.PlaceholderIn | openmcp/api/tools_api.py:40 | `{name}` occurs in a rendered template exactly when the template has a `{name}` segment |
| ToolsApi.FirstFill | openmcp/api/tools_api.py:48-49 | A path argument fills `{name}` exactly when some argument's key has `str` equal to `name`; the value is `str` of the first such argument's value |
| ToolsApi.FillAllAt | openmcp/api/tools_api.py:48-49 | After the loop the template keeps its length; each `{name}` segment holds `str` of the first path argument named `name`, and every segment no argument names is unchanged |
| ToolsApi.SubstituteTemplate | openmcp/api/tools_api.py:48-49 | For any path bucket whose keys' and values' `str` hold no braces, the loop on a rendered template succeeds with the template filled as above, and the result is again a template |
| ToolsApi.NoPlaceholderLeft | openmcp/api/tools_api.py:48-49 | Under the same conditions no `{key}` of any path argument is left in the URL |
| ToolsApi.SubstituteCanLeavePlaceholder | openmcp/api/tools_api.py:48-49 | Outside a template a placeholder can survive the loop although no value holds one: `{{x}}` with `x = 'x'` gives `{x}` |
| ToolsApi.PutArgumentsExample | openmcp/api/tools_api.py:39-45 | A PUT to `/{id}` with `id` and `n` puts `id` in the path and `n` in the body |
| ToolsApi.PutUrlExample | openmcp/api/tools_api.py:48-49 | Filling `/{id}` with 7 gives `/7` |
| ToolsApi.Route | openmcp/api/tools_api.py:54-63 | A request is sent exactly for GET, POST, PUT and DELETE, with that method and `str(url)`; GET/DELETE send the query bucket, POST/PUT the body bucket; anything else is `Unsupported method: <m>` |
| ToolsApi.ExecuteRefusesIncompleteArgs | openmcp/api/tools_api.py:16-17 | A falsy body, or one without `tool_name` or `parameters`, gets 400 and sends nothing |
| ToolsApi.ExecuteUnknownTool | openmcp/api/tools_api.py:19-25 | An unregistered name (or falsy descriptor) gets 404 `Tool <name> not found` and sends nothing |
| ToolsApi.ExecuteSendsOnlyForRegisteredTools | openmcp/api/tools_api.py:12-73 | A request goes out only for a registered, truthy descriptor, is the one its plan builds, and the reply wraps that request's outcome |
| ToolsApi.ExecuteWithoutRequest | openmcp/api/tools_api.py:12-73 | When no request is sent, the reply does not depend on the network |
| ToolsApi.SentArguments | openmcp/api/tools_api.py:27-61 | A sent request has the descriptor's method and the filled URL; GET/DELETE carry each non-path argument in the query string, POST/PUT in the JSON body |
| ToolsApi.PatchIsRefused | openmcp/api/tools_api.py:62-63 | A PATCH descriptor, which the parser does extract, is refused with `Unsupported method: PATCH` |
| ToolsApi.ErrorStatusIsRelayed | openmcp/api/tools_api.py:66-70 | A 4xx/5xx JSON answer is relayed as a 200 envelope with `success: false`, the status and the decoded data |
| ToolsApi.EnvelopeSuccess | openmcp/api/tools_api.py:66-70 | A non-JSON answer is relayed as its raw text, with `success` false only for 4xx/5xx |
| ToolsApi.ClassifyArgs | openmcp/api/tools_api.py:39-45 | The routing loop computes exactly the classification specification |
| ToolsApi.SubstitutePath | openmcp/api/tools_api.py:48-49 | The replacement loop computes exactly the substitution specification |
| ToolsApi.PlanRequest | openmcp/api/tools_api.py:29-63 | The body of the `try` up to sending computes exactly the request plan |
| ToolsApi.Registry.constructor | openmcp/api/tools_api.py:9 | The registry starts empty |
| ToolsApi.Registry.RegisterTool | openmcp/api/tools_api.py:93-106 | The reply and the new registry are those of the registration specification |
| ToolsApi.Registry.ListTools | openmcp/api/tools_api.py:76-90 | The loop computes exactly the listing specification |
| ToolsApi.Registry.ExecuteTool | openmcp/api/tools_api.py:12-73 | The reply and the request sent are those of the execution specification |
| DiscoveryApi.SpecSource | openmcp/api/discovery_api.py:19 | The source can be read exactly when the body is a dict |
| DiscoveryApi.RegisterEachAll | openmcp/api/discovery_api.py:37-43 | The registration loop completes exactly when every endpoint converts; then the registry is the old one with every descriptor upserted in order, and the counter equals the number of endpoints |
| DiscoveryApi.RegisteredUnderName | openmcp/api/discovery_api.py:39-42 | After the loop each name holds the last descriptor converted under it; other names are unchanged |
| DiscoveryApi.RegisterEachErrSticks | openmcp/api/discovery_api.py:39-43 | Once a conversion raises, the remaining endpoints are never looked at |
| DiscoveryApi.RegisterSpecRefuses | openmcp/api/discovery_api.py:15-21 | No body gets 400 `No data provided`; neither source gets 400 `Missing spec_path or spec_url`; nothing changes |
| DiscoveryApi.BothSourcesFetchPath | openmcp/api/discovery_api.py:19-29 | With both `spec_path` and `spec_url`, the path string is fetched over the network and no document is loaded from disk |
| DiscoveryApi.PathSourceReadsFile | openmcp/api/discovery_api.py:25-32 | Without `spec_url`, the document is read from disk and the result does not depend on the network |
| DiscoveryApi.ProcessedCountsAll | openmcp/api/discovery_api.py:35-50 | A 200 reply means every endpoint converted; it reports `tools_discovered` and `tools_registered` both equal to the number of extracted endpoints, and the registry is the old one with every descriptor upserted in order |
| DiscoveryApi.AnyNamedExtends | openmcp/api/discovery_api.py:70 | A match found in a list is still found when more items follow |
| DiscoveryApi.AnyNamedSound | openmcp/api/discovery_api.py:70 | A match is a listed descriptor with that name |
| DiscoveryApi.MergePrefix | openmcp/api/discovery_api.py:69-71 | The merge only appends: every earlier stage of the loop is a prefix of the result |
| DiscoveryApi.MergeExtends | openmcp/api/discovery_api.py:69-71 | The document-derived tools come first, followed only by registered descriptors |
| DiscoveryApi.MergeCovers | openmcp/api/discovery_api.py:69-71 | Every registered descriptor is listed, unless a tool already listed carries its name |
| DiscoveryApi.MergeShadowed | openmcp/api/discovery_api.py:69-71 | Registered descriptors whose names are already listed add nothing |
| DiscoveryApi.AnyNamedNone | openmcp/api/discovery_api.py:70 | The `any` test is false exactly when every listed tool can be indexed by `'name'` and none carries the name |
| DiscoveryApi.MergeFresh | openmcp/api/discovery_api.py:69-71 | Every descriptor appended after the document-derived tools is a registered one whose name no tool listed before it carries |
| DiscoveryApi.MergeErrSticks | openmcp/api/discovery_api.py:69-71 | Once a name test raises, the remaining registry entries are never looked at |
| DiscoveryApi.SpecToolTagged | openmcp/api/discovery_api.py:61-66 | What one document yields carries that document's id as `spec_id` |
| DiscoveryApi.TaggedCarriesId | openmcp/api/discovery_api.py:65 | Tagging sets `spec_id` to the document's id |
| DiscoveryApi.SpecToolsTagged | openmcp/api/discovery_api.py:61-66 | Every document-derived tool carries the id of a loaded document it came from |
| DiscoveryApi.SpecSummaryIsSingle | openmcp/api/discovery_api.py:84-92 | A document has one summary exactly when it is a dict whose `info`, if any, is a dict |
| DiscoveryApi.SpecListingDefaults | openmcp/api/discovery_api.py:80-97 | The listing succeeds exactly when every document can be summarised; then one entry per document in order, `count` their number, and `Unknown`/`1.0.0`/`''`/`[]` defaults; no documents give `[]` with count 0 |
| DiscoveryApi.Glob | openmcp/api/discovery_api.py:114 | Every path found is a directory entry with the pattern's suffix |
| DiscoveryApi.ScanStores | openmcp/api/discovery_api.py:113-125 | Every file that loads is stored, in scan order, even when its extraction then fails |
| DiscoveryApi.ScanSkipsFailures | openmcp/api/discovery_api.py:113-125 | A summary is listed exactly when some scanned file yields it; failures are omitted and scanning goes on |
| DiscoveryApi.ScanSummary | openmcp/api/discovery_api.py:116-123 | A summary names its own file, its title (default `Unknown`) and that document's number of AI tools |
| DiscoveryApi.ScanMissingDirectory | openmcp/api/discovery_api.py:106-108 | A missing directory gets 404 `Directory not found: <dir>` and loads nothing |
| DiscoveryApi.RegisterSpecHandler | openmcp/api/discovery_api.py:10-53 | The reply, the loaded documents and the registry afterwards are those of the registration specification |
| DiscoveryApi.RegisterToolsHandler | openmcp/api/discovery_api.py:35-53 | The counting loop computes the registration specification from the document on |
| DiscoveryApi.CollectSpecTools | openmcp/api/discovery_api.py:62-66 | The inner loop computes exactly one document's tagged tools |
| DiscoveryApi.AnyNamedLoop | openmcp/api/discovery_api.py:70 | The loop computes exactly the short-circuit `any` test |
| DiscoveryApi.MergeLoop | openmcp/api/discovery_api.py:69-71 | The loop computes exactly the merge specification |
| DiscoveryApi.DiscoverTools | openmcp/api/discovery_api.py:55-77 | The reply is that of the discovery specification |
| DiscoveryApi.ListSpecs | openmcp/api/discovery_api.py:79-97 | The loop computes exactly the specification listing |
| DiscoveryApi.ScanFile | openmcp/api/discovery_api.py:115-125 | One file's `try` body stores the loaded document and gives its summary, as the one-file specification says |
| DiscoveryApi.ScanMatches | openmcp/api/discovery_api.py:114-125 | The inner loop extends the scan specification over one pattern's files |
| DiscoveryApi.ScanAll | openmcp/api/discovery_api.py:113-125 | The nested loops compute the scan specification over all candidate files |
| DiscoveryApi.ScanDirectoryHandler | openmcp/api/discovery_api.py:99-134 | The reply and the loaded documents afterwards are those of the scan specification |
| ToolText.AskMessage | openmcp/core/ollama_integration.py:117 | A client that raises gives that exception |
| ToolText.AskContent | openmcp/core/ollama_integration.py:117 | The content is `message['content']` of a message that could be read |
| ToolText.Slice | openmcp/core/ollama_integration.py:83 | Python slicing: the stretch when the end is not before the start, else empty |
| ToolText.Span | openmcp/core/ollama_integration.py:79-83 | There is no candidate exactly when the text has no `{` or no `}` |
| ToolText.SpanOutermost | openmcp/core/ollama_integration.py:79-83 | The candidate opens with `{` and closes with `}` (or is empty), with no `{` before it and no `}` after it in the text |
| ToolText.HasCallKeys | openmcp/core/ollama_integration.py:86 | For a dict it is the test for both keys; it raises exactly for a number, a boolean or `null` |
| ToolText.ParseCall | openmcp/core/ollama_integration.py:75-91 | Only a non-string reply or a decoded candidate can make the parser raise; decode errors give no call |
| ToolText.ParseCallNeedsBraces | openmcp/core/ollama_integration.py:79-82 | A reply without `{` or without `}` carries no call |
| ToolText.ParseCallFinds | openmcp/core/ollama_integration.py:83-87 | A call is found exactly when the candidate decodes to a document with both keys, and the call is that document |
| ToolText.ParseCallObject | openmcp/core/ollama_integration.py:86-87 | A decoded dict is a call exactly when it has both `tool` and `parameters` |
| ToolText.ParseCallQuietly | openmcp/core/ollama_tools.py:239-255 | With every exception swallowed, the parser gives the call when there is one and `None` otherwise |
| ToolText.ParamEntry | openmcp/core/ollama_integration.py:55 | An entry is `k: type` with `any` for a missing type, and exists exactly when the parameter is a dict |
| ToolText.ParamListEntries | openmcp/core/ollama_integration.py:55 | The list succeeds exactly when every parameter is a dict, and then names every parameter in order with its type |
| ToolText.PromptLine | openmcp/core/ollama_integration.py:56 | The line is `- name(params): ` followed by the description |
| OllamaIntegration.DiscoveryAdoptsOrKeeps | openmcp/core/ollama_integration.py:32-45 | Discovery either adopts and returns the server's `tools`, or returns `[]` and keeps the known tools |
| OllamaIntegration.ToolLineIsSingle | openmcp/core/ollama_integration.py:53-56 | A tool gives one line, and only a dict tool gives one |
| OllamaIntegration.ToolLineDefaults | openmcp/core/ollama_integration.py:54-56 | A tool with only a name gives `- name(): No description` |
| OllamaIntegration.ToolsPromptEmpty | openmcp/core/ollama_integration.py:49-50 | With no tools the prompt is exactly `No tools are currently available.` |
| OllamaIntegration.ToolsPromptLines | openmcp/core/ollama_integration.py:52-58 | The prompt succeeds exactly when every tool gives a line, and is then `Available tools:\n` and those lines in order, joined by newlines |
| OllamaIntegration.ExecuteTool | openmcp/core/ollama_integration.py:60-73 | A network failure gives `{error: message}` |
| OllamaIntegration.ExecuteToolRelays | openmcp/core/ollama_integration.py:62-73 | The server's decoded answer is passed on unchanged, error statuses included; an answer that does not decode gives `{error: message}` |
| OllamaIntegration.ResultMessage | openmcp/core/ollama_integration.py:136-143 | Formatting raises exactly when the result is not a dict, or a success's data can neither be searched nor read for `expression` |
| OllamaIntegration.ResultShowsExpression | openmcp/core/ollama_integration.py:138-139 | A success whose data has `expression` reports `Result: <expression>` |
| OllamaIntegration.ResultDumpsData | openmcp/core/ollama_integration.py:140-141 | Any other successful data is reported as `Result: ` and its JSON text |
| OllamaIntegration.ResultReportsError | openmcp/core/ollama_integration.py:142-143 | A failure reports `Error: ` and its `error`, or `Unknown error` |
| OllamaIntegration.ToolRoundExtends | openmcp/core/ollama_integration.py:122-172 | A tool round keeps the history and adds at most three messages |
| OllamaIntegration.ExchangeExtends | openmcp/core/ollama_integration.py:107-183 | The `try` block keeps the history and adds at most three messages |
| OllamaIntegration.ConverseExtendsHistory | openmcp/core/ollama_integration.py:93-183 | A turn keeps the history, appends the user message first, and adds at most three more |
| OllamaIntegration.ConversePlainReply | openmcp/core/ollama_integration.py:173-179 | A reply without a tool call is returned as is and recorded as the one assistant message after the user's |
| OllamaIntegration.ToolRoundRecordsThree | openmcp/core/ollama_integration.py:122-172 | A completed tool round records the announcement, the `Tool result:` note and the final answer, and returns the final answer |
| OllamaIntegration.Integration.constructor | openmcp/core/ollama_integration.py:25-30 | Starts with no tools and an empty history |
| OllamaIntegration.Integration.DiscoverTools | openmcp/core/ollama_integration.py:32-45 | The returned tools and the new tool list are those of the discovery specification; the history is unchanged |
| OllamaIntegration.Integration.FormatToolsForPrompt | openmcp/core/ollama_integration.py:47-58 | The loop computes exactly the prompt specification |
| OllamaIntegration.Integration.Chat | openmcp/core/ollama_integration.py:93-183 | The reply and the new history are those of the turn specification; the tools are unchanged |
| OllamaIntegration.Integration.RunToolCall | openmcp/core/ollama_integration.py:122-172 | The answer and the new history are those of the tool-round specification |
| OllamaIntegration.Integration.ResetConversation | openmcp/core/ollama_integration.py:185-187 | The history is empty and the tools are unchanged |
| OllamaTools.Tool.ToOllamaFormat | openmcp/core/ollama_tools.py:22-31 | The model's tool format reads back as the same tool: its fields are copied unchanged |
| OllamaTools.MakeTool | openmcp/core/ollama_tools.py:52-57 | A tool is made only from a dict with a `name`, and is keyed by that name |
| OllamaTools.MakeToolDefaults | openmcp/core/ollama_tools.py:52-57 | An entry with only a name gets description `''` and parameters `{}` |
| OllamaTools.RegisterAllAssigns | openmcp/core/ollama_tools.py:50-58 | The loop completes exactly when every entry makes a tool, and then every tool is upserted in order |
| OllamaTools.LaterDuplicatesWin | openmcp/core/ollama_tools.py:50-58 | Each name holds the last tool made under it; later duplicates overwrite |
| OllamaTools.RegisterAllErrSticks | openmcp/core/ollama_tools.py:50-58 | Once an entry raises, the rest of the list is never looked at |
| OllamaTools.DiscoverRefusesStatus | openmcp/core/ollama_tools.py:62-64 | A status other than 200 registers nothing and returns `[]` |
| OllamaTools.DiscoverReturnsRegistry | openmcp/core/ollama_tools.py:43-67 | Discovery returns either `[]` or every tool of the registry it leaves, in order |
| OllamaTools.Listed | openmcp/core/ollama_tools.py:45-50 | There is a list to walk through only when the request was answered with status 200 |
| OllamaTools.DiscoverWithoutListing | openmcp/core/ollama_tools.py:45-67 | A failed request, a non-200 status, an undecodable body, a missing `tools` key or a `tools` value that cannot be iterated returns `[]` and registers nothing |
| OllamaTools.DiscoverRegistersAll | openmcp/core/ollama_tools.py:50-61 | When every entry makes a tool, each is upserted in list order and the whole registry is returned, in order |
| OllamaTools.DiscoverStopsAtFirstFailure | openmcp/core/ollama_tools.py:50-67 | When some entry raises, `[]` is returned and the registry keeps exactly the upserts of the entries before the first one that raises |
| OllamaTools.Kwargs | openmcp/core/ollama_tools.py:134 | `**args` succeeds exactly for a dict whose keys are all strings |
| OllamaTools.ToolResultFolds | openmcp/core/ollama_tools.py:71-87 | The wrapper gives `data` (default `{}`) on success, `{error: error or 'Unknown error'}` otherwise, and `{error: str(e)}` on an exception |
| OllamaTools.Offered | openmcp/core/ollama_tools.py:97 | One offered tool per registered tool, in order, each reading back as that tool |
| OllamaTools.UnknownCallSkipped | openmcp/core/ollama_tools.py:133 | A call naming an unregistered tool yields no result and sends nothing |
| OllamaTools.KnownCallRuns | openmcp/core/ollama_tools.py:133-138 | A call naming a registered tool runs that tool's wrapper with the call's arguments and records `{tool, result}` |
| OllamaTools.NativeTurnExtends | openmcp/core/ollama_tools.py:113-177 | Native calling keeps the conversation and adds at most three messages |
| OllamaTools.FallbackLinesAll | openmcp/core/ollama_tools.py:182-188 | The descriptions succeed exactly when every tool's parameters can be listed, and are then one `- name(k: type, ...): description` line per tool, in order; no tools give no lines |
| OllamaTools.FallbackVerbatim | openmcp/core/ollama_tools.py:214-237 | A reply that parses to no call, or to a call of an unregistered tool, is returned verbatim, whatever the network does |
| OllamaTools.ChatTurnConversation | openmcp/core/ollama_tools.py:91-111 | The user message is appended first; the conversation afterwards is the native turn's, which keeps it and adds at most three messages, since the fallback leaves the conversation alone |
| OllamaTools.ToolClient.constructor | openmcp/core/ollama_tools.py:36-41 | Starts with no tools and an empty conversation |
| OllamaTools.ToolClient.DiscoverAndRegisterTools | openmcp/core/ollama_tools.py:43-67 | The returned tools and the new registry are those of the discovery specification; the conversation is unchanged |
| OllamaTools.ToolClient.RegisterEntries | openmcp/core/ollama_tools.py:50-58 | The loop computes exactly the registration progress, stopping at the first exception |
| OllamaTools.ToolClient.ChatWithTools | openmcp/core/ollama_tools.py:91-111 | The reply and the new conversation are those of the turn specification; the registry is unchanged |
| OllamaTools.ToolClient.TryNativeTools | openmcp/core/ollama_tools.py:113-177 | The answer and the new conversation are those of the native-turn specification |
| OllamaTools.ToolClient.RecordCalls | openmcp/core/ollama_tools.py:140-165 | The two appends and the follow-up are those of the calls-turn specification |
| OllamaTools.ToolClient.RunToolCalls | openmcp/core/ollama_tools.py:128-138 | The loop computes exactly the results of the registered calls |
| OllamaTools.ToolClient.DescribeTools | openmcp/core/ollama_tools.py:182-188 | The loop computes exactly the fallback's tool lines |
| OllamaTools.ToolClient.FallbackToolCalling | openmcp/core/ollama_tools.py:179-237 | The answer is that of the fallback specification |
| OllamaTools.ToolClient.Reset | openmcp/core/ollama_tools.py:257-259 | The conversation is empty and the registry is unchanged |

## Left out

- Real HTTP, files, directory listings, JSON/YAML decoding, `json.dumps` and the `ollama` client are modelled as functions passed in. Nothing is said about what they return, beyond their types.
- Flask plumbing (`request.json`, `jsonify`, blueprints, `current_app.config`): a handler gets the decoded body and returns a status and JSON value. The scan's default directory is a parameter.
- Headers (`Content-Type`), timeouts and the `temperature` option do not affect the modelled behaviour and are not modelled. Ollama's `host` and the client object are not modelled either.
- Logging and `print` side effects are not modelled: the log lines in all five files and the `print` in `_parse_endpoint`.
- Concurrency: handlers run one at a time on the module-level registry.
- Floating-point numbers are not in the value model; JSON numbers are integers.
- pydantic validation of `AIToolExtension` and `ParsedEndpoint` is reduced to these checks:
  - the description is a string;
  - the category is a string or null;
  - `x-ai-tool` is read as a bool;
  - the record's fields have their declared types;
  - `responses` is a dict with string keys, and a request-body schema has string keys.
- pydantic's coercions and error texts are not modelled.
- The exact wording of Python and `requests` exception messages is modelled only where a handler shows it; `TypeError`/`AttributeError` texts follow CPython's usual form. `repr` is unescaped and `str` of an integer is its decimal form.
- `ToolsApi.Summary`, `DiscoveryApi.SpecSummary`: a bool tool name or `info.title` is stored as its key, and is listed as that key's integer (`1`, not `true`), because dict keys are kept in hash-normal form, where `True` and `1` are one key.
- `ToolsApi.NoPlaceholderLeft`: proved for URLs that are path templates and arguments whose `str` holds no brace; outside that domain `str.replace` can leave a placeholder behind (`ToolsApi.SubstituteCanLeavePlaceholder`).
- Python dicts built from JSON with repeated keys are not distinguished: a decoded dict is given as an association list.
- `Path` semantics are simplified:
  - `str(spec_file)` is the directory, `/` and the name;
  - the stem drops the last suffix of the last path component;
  - glob order, hidden files and non-recursive matching of overlapping patterns are given by the directory listing.
- `OpenApiParser.Stem`: states only that the stem has no `/` and prefixes the file name, plus two examples, rather than the whole of `pathlib`'s suffix rules.
- The `HTTPError` text from `raise_for_status` uses the requested URL as given; `requests`' URL normalisation is not modelled.
- `Tool.function` is a closure over the tool's name. It is modelled by the name: calling a tool's function runs `ToolResult` for that name.
- The fallback prompt's literal text (`openmcp/core/ollama_tools.py:190-197`) is modelled as two constant strings around the tool lines, with the same content.
- `examples/`, `openmcp/app.py` and `openmcp/utils/logging.py` are not part of this model.
