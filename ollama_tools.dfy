/**
 * The chat client with native tool calling (`OllamaToolClient`): it registers
 * the server's tools by name, offers them to the model in the model's own
 * tool format, runs the calls the model asks for through the server, and
 * falls back to a prompt that describes the tools when native calling gives
 * no answer.
 */
module OllamaTools {
  import opened Wrappers
  import opened Strings
  import opened Values
  import opened Http
  import opened ToolText
  import OrderedMap

  /** A registered tool. Its function is the execute wrapper for its own name, `ToolResult`. */
  datatype Tool = Tool(name: Value, description: Value, parameters: Value) {
    /** `to_ollama_format`. */
    function ToOllamaFormat(): (r: Value)
      ensures FromOllamaFormat(r) == Some(this)
    {
      var r := Obj([
        (KStr("type"), Str("function")),
        (KStr("function"), Obj([
          (KStr("name"), name),
          (KStr("description"), description),
          (KStr("parameters"), parameters)]))]);
      var f := r.fields[1].1.fields;
      assert OrderedMap.Get(r.fields, KStr("type")) == Some(Str("function"));
      assert OrderedMap.Get(r.fields, KStr("function")) == Some(r.fields[1].1);
      OrderedMap.GetAt(f, KStr("name"), 0);
      OrderedMap.GetAt(f, KStr("description"), 1);
      OrderedMap.GetAt(f, KStr("parameters"), 2);
      r
    }
  }

  /** Reading a tool back from the model's tool format. */
  function FromOllamaFormat(v: Value): Option<Tool> {
    if !v.Obj? || OrderedMap.Get(v.fields, KStr("type")) != Some(Str("function")) then None
    else
      match OrderedMap.Get(v.fields, KStr("function"))
      case None => None
      case Some(described) =>
        if !described.Obj? then None
        else
          var f := described.fields;
          match (OrderedMap.Get(f, KStr("name")), OrderedMap.Get(f, KStr("description")), OrderedMap.Get(f, KStr("parameters")))
          case (Some(n), Some(d), Some(p)) => Some(Tool(n, d, p))
          case _ => None
  }

  type Registry = OrderedMap.Map<Key, Tool>

  /* ---------------------------------------------------------------- */
  /* Discovery and registration                                       */
  /* ---------------------------------------------------------------- */

  function ListRequest(base: string): Request {
    Get(base + "/api/tools/list", [])
  }

  /** One entry of the server's list as a tool, keyed by its name; description `''` and parameters `{}` by default. */
  function MakeTool(data: Value): (r: Py<(Key, Tool)>)
    ensures r.Ok? ==> data.Obj? && Index(data, "name") == Ok(r.value.1.name) && KeyOf(r.value.1.name) == Ok(r.value.0)
  {
    var name :- Index(data, "name");
    var tool := Tool(name, Lookup(data.fields, "description", Str("")), Lookup(data.fields, "parameters", EMPTY));
    var key :- KeyOf(name);
    Ok((key, tool))
  }

  /** An entry with only a name gets the empty description and the empty parameter schema. */
  lemma MakeToolDefaults(name: string)
    ensures MakeTool(Obj([(KStr("name"), Str(name))])) == Ok((KStr(name), Tool(Str(name), Str(""), EMPTY)))
  {
    var data := Obj([(KStr("name"), Str(name))]);
    assert OrderedMap.Get(data.fields, KStr("description")) == None;
    assert OrderedMap.Get(data.fields, KStr("parameters")) == None;
  }

  function MakeStep(data: Value): Py<seq<(Key, Tool)>> {
    var entry :- MakeTool(data);
    Ok([entry])
  }

  datatype Progress = Progress(tools: Registry, error: Option<PyError>)

  /** The registration loop over the prefix seen so far; an exception leaves what was registered before it. */
  function RegisterAll(tools: Registry, items: seq<Value>): Progress
    decreases |items|
  {
    if items == [] then Progress(tools, None)
    else
      var p := RegisterAll(tools, items[..|items| - 1]);
      if p.error.Some? then p
      else
        match MakeTool(items[|items| - 1])
        case Err(e) => p.(error := Some(e))
        case Ok(entry) => Progress(OrderedMap.Put(p.tools, entry.0, entry.1), None)
  }

  /**
   * The loop finishes exactly when every entry makes a tool, and then it has
   * assigned every tool under its name in list order.
   */
  lemma {:induction false} RegisterAllAssigns(tools: Registry, items: seq<Value>)
    ensures RegisterAll(tools, items).error.None? <==> ConcatMap(items, MakeStep).Ok?
    ensures RegisterAll(tools, items).error.None? ==>
      RegisterAll(tools, items).tools == OrderedMap.PutAll(tools, ConcatMap(items, MakeStep).value)
    decreases |items|
  {
    if items != [] {
      var n := |items| - 1;
      var init := items[..n];
      RegisterAllAssigns(tools, init);
      var p := RegisterAll(tools, init);
      if p.error.None? {
        var made := ConcatMap(init, MakeStep).value;
        match MakeTool(items[n]) {
          case Err(e) =>
          case Ok(entry) =>
            OrderedMap.PutAllAppend(tools, made, entry.0, entry.1);
        }
      }
    }
  }

  /** Later entries with the same name overwrite earlier ones: each name holds the last tool made under it. */
  lemma LaterDuplicatesWin(tools: Registry, items: seq<Value>, k: Key)
    requires ConcatMap(items, MakeStep).Ok?
    ensures var made := ConcatMap(items, MakeStep).value;
      OrderedMap.Get(RegisterAll(tools, items).tools, k) ==
        if OrderedMap.Last(made, k).Some? then OrderedMap.Last(made, k) else OrderedMap.Get(tools, k)
  {
    RegisterAllAssigns(tools, items);
    OrderedMap.PutAllLast(tools, ConcatMap(items, MakeStep).value, k);
  }

  /** Once an entry has raised, the rest of the list is never looked at. */
  lemma {:induction false} RegisterAllErrSticks(tools: Registry, items: seq<Value>, i: nat)
    requires i <= |items| && RegisterAll(tools, items[..i]).error.Some?
    ensures RegisterAll(tools, items) == RegisterAll(tools, items[..i])
    decreases |items| - i
  {
    if i < |items| {
      assert items[..i + 1][..i] == items[..i];
      RegisterAllErrSticks(tools, items, i + 1);
    } else {
      assert items[..i] == items;
    }
  }

  /** An entry that raises after entries that all made tools leaves exactly their upserts. */
  lemma RegisterAllStops(tools: Registry, items: seq<Value>, i: nat)
    requires i < |items| && ConcatMap(items[..i], MakeStep).Ok? && MakeTool(items[i]).Err?
    ensures RegisterAll(tools, items) ==
      Progress(OrderedMap.PutAll(tools, ConcatMap(items[..i], MakeStep).value), Some(MakeTool(items[i]).error))
  {
    RegisterAllAssigns(tools, items[..i]);
    var init := items[..i + 1];
    assert init[..i] == items[..i] && init[i] == items[i];
    assert RegisterAll(tools, init).error.Some?;
    RegisterAllErrSticks(tools, items, i + 1);
  }

  /**
   * The entries `for tool_data in data['tools']` walks through, or `None`
   * when the request, the status, the JSON decoding, the `'tools'` lookup or
   * the iteration fails first.
   */
  function Listed(base: string, http: Transport): (r: Option<seq<Value>>)
    ensures r.Some? ==> http(ListRequest(base)).Answered? && http(ListRequest(base)).response.status == 200
  {
    match http(ListRequest(base))
    case Failed(_) => None
    case Answered(response) =>
      if response.status != 200 then None
      else
        match DecodeJson(response)
        case Err(_) => None
        case Ok(data) =>
          match Index(data, "tools")
          case Err(_) => None
          case Ok(listed) =>
            match Iterate(listed)
            case Err(_) => None
            case Ok(items) => Some(items)
  }

  /**
   * `discover_and_register_tools`: the list it returns and the registry it
   * leaves. Any failure returns `[]`; the tools registered before an
   * exception in the loop stay registered.
   */
  function Discover(tools: Registry, base: string, http: Transport): (seq<Tool>, Registry) {
    match Listed(base, http)
    case None => ([], tools)
    case Some(items) =>
      var p := RegisterAll(tools, items);
      if p.error.Some? then ([], p.tools) else (OrderedMap.Values(p.tools), p.tools)
  }

  /** A status other than 200 registers nothing and returns `[]`. */
  lemma DiscoverRefusesStatus(tools: Registry, base: string, http: Transport)
    requires http(ListRequest(base)).Answered? && http(ListRequest(base)).response.status != 200
    ensures Discover(tools, base, http) == ([], tools)
  {
  }

  /** What discovery returns is either nothing or the whole registry it leaves, in order. */
  lemma DiscoverReturnsRegistry(tools: Registry, base: string, http: Transport)
    ensures var (returned, now) := Discover(tools, base, http);
      returned == [] || returned == OrderedMap.Values(now)
  {
  }

  /** Without a list to walk through, discovery returns `[]` and registers nothing. */
  lemma DiscoverWithoutListing(tools: Registry, base: string, http: Transport)
    ensures Listed(base, http).None? ==> Discover(tools, base, http) == ([], tools)
  {
  }

  /** When every entry makes a tool, discovery registers them all in order and returns the whole registry. */
  lemma DiscoverRegistersAll(tools: Registry, base: string, http: Transport)
    requires Listed(base, http).Some? && ConcatMap(Listed(base, http).value, MakeStep).Ok?
    ensures var now := OrderedMap.PutAll(tools, ConcatMap(Listed(base, http).value, MakeStep).value);
      Discover(tools, base, http) == (OrderedMap.Values(now), now)
  {
    RegisterAllAssigns(tools, Listed(base, http).value);
  }

  /**
   * When some entry does not make a tool, discovery returns `[]` and keeps
   * exactly the tools made from the entries before the first such one.
   */
  lemma DiscoverStopsAtFirstFailure(tools: Registry, base: string, http: Transport)
    requires Listed(base, http).Some? && ConcatMap(Listed(base, http).value, MakeStep).Err?
    ensures var items := Listed(base, http).value;
      exists i :: 0 <= i < |items| && MakeTool(items[i]).Err? && ConcatMap(items[..i], MakeStep).Ok? &&
        Discover(tools, base, http) == ([], OrderedMap.PutAll(tools, ConcatMap(items[..i], MakeStep).value))
  {
    var items := Listed(base, http).value;
    ConcatMapFirstErr(items, MakeStep);
    var i :| 0 <= i < |items| && ConcatMap(items[..i], MakeStep).Ok? && MakeStep(items[i]).Err?;
    RegisterAllStops(tools, items, i);
  }

  /* ---------------------------------------------------------------- */
  /* Running a tool                                                   */
  /* ---------------------------------------------------------------- */

  /** All keys of a keyword-argument dict are strings. */
  predicate StringKeys(fields: Fields) {
    forall i :: 0 <= i < |fields| ==> fields[i].0.KStr?
  }

  /** `f(**args)`: `args` must be a dict whose keys are strings. */
  function Kwargs(args: Value): (r: Py<Fields>)
    ensures r.Ok? <==> args.Obj? && StringKeys(args.fields)
    ensures r.Ok? ==> r.value == args.fields
  {
    match args
    case Obj(fields) => if StringKeys(fields) then Ok(fields) else Err(TypeError("execute() keywords must be strings"))
    case _ => Err(TypeError("execute() argument after ** must be a mapping, not " + TypeName(args)))
  }

  function ExecuteRequest(base: string, name: Value, kwargs: Fields): Request {
    Post(base + "/api/tools/execute", [(KStr("tool_name"), name), (KStr("parameters"), Obj(kwargs))])
  }

  /**
   * The execute wrapper a tool carries: the result's `data` (default `{}`)
   * on success, else `{'error': error}` (default `'Unknown error'`); any
   * exception becomes `{'error': str(e)}`.
   */
  function ToolResult(base: string, name: Value, kwargs: Fields, http: Transport): Value {
    match http(ExecuteRequest(base, name, kwargs))
    case Failed(m) => ErrorBody(m)
    case Answered(response) =>
      match DecodeJson(response)
      case Err(e) => ErrorBody(Message(e))
      case Ok(result) =>
        match result
        case Obj(fields) =>
          if Truthy(Lookup(fields, "success", Null)) then Lookup(fields, "data", EMPTY)
          else Obj([(KStr("error"), Lookup(fields, "error", Str("Unknown error")))])
        case _ => ErrorBody("'" + TypeName(result) + "' object has no attribute 'get'")
  }

  /** What a tool gives back for each kind of server answer. */
  lemma ToolResultFolds(base: string, name: Value, kwargs: Fields, http: Transport)
    ensures http(ExecuteRequest(base, name, kwargs)).Failed? ==>
      ToolResult(base, name, kwargs, http) == ErrorBody(http(ExecuteRequest(base, name, kwargs)).message)
    ensures http(ExecuteRequest(base, name, kwargs)).Answered? ==>
      var body := http(ExecuteRequest(base, name, kwargs)).response.body;
      match body
      case Malformed(m) => ToolResult(base, name, kwargs, http) == ErrorBody(m)
      case Parsed(Obj(fields)) =>
        ToolResult(base, name, kwargs, http) ==
          if Truthy(Lookup(fields, "success", Null)) then Lookup(fields, "data", EMPTY)
          else Obj([(KStr("error"), Lookup(fields, "error", Str("Unknown error")))])
      case Parsed(other) => ToolResult(base, name, kwargs, http).Obj? && |ToolResult(base, name, kwargs, http).fields| == 1
  {
  }

  /* ---------------------------------------------------------------- */
  /* Native tool calling                                              */
  /* ---------------------------------------------------------------- */

  /** `[tool.to_ollama_format() for tool in self.tools.values()]`. */
  function Offered(tools: Registry): (r: seq<Value>)
    ensures |r| == |tools|
    ensures forall i :: 0 <= i < |tools| ==> FromOllamaFormat(r[i]) == Some(tools[i].1)
  {
    var vs := OrderedMap.Values(tools);
    var r := seq(|vs|, i requires 0 <= i < |vs| => vs[i].ToOllamaFormat());
    forall i | 0 <= i < |tools|
      ensures vs[i] == tools[i].1
    {
      ValuesAt(tools, i);
    }
    r
  }

  lemma {:induction false} ValuesAt(tools: Registry, i: nat)
    requires i < |tools|
    ensures OrderedMap.Values(tools)[i] == tools[i].1
    decreases i
  {
    if i > 0 {
      ValuesAt(tools[1..], i - 1);
    }
  }

  /** One requested call: run it when its name is registered, skip it otherwise. */
  function CallResult(tools: Registry, base: string, http: Transport, call: Value): Py<seq<Value>> {
    var invoked :- Index(call, "function");
    var name :- Index(invoked, "name");
    var args :- Index(invoked, "arguments");
    var key :- KeyOf(name);
    match OrderedMap.Get(tools, key)
    case None => Ok([])
    case Some(tool) =>
      var kwargs :- Kwargs(args);
      Ok([Obj([(KStr("tool"), name), (KStr("result"), ToolResult(base, tool.name, kwargs, http))])])
  }

  function CallStep(tools: Registry, base: string, http: Transport): Value -> Py<seq<Value>> {
    call => CallResult(tools, base, http, call)
  }

  /** A call naming a tool that is not registered sends nothing and yields no result. */
  lemma UnknownCallSkipped(tools: Registry, base: string, http: Transport, other: Transport, call: Value,
                           invoked: Value, name: Value)
    requires Index(call, "function") == Ok(invoked) && Index(invoked, "name") == Ok(name)
    requires Index(invoked, "arguments").Ok?
    requires KeyOf(name).Ok? && KeyOf(name).value !in OrderedMap.Keys(tools)
    ensures CallResult(tools, base, http, call) == Ok([])
    ensures CallResult(tools, base, other, call) == Ok([])
  {
  }

  /** A call naming a registered tool runs that tool's own wrapper with the call's arguments. */
  lemma KnownCallRuns(tools: Registry, base: string, http: Transport, call: Value,
                      invoked: Value, name: Value, args: Value, tool: Tool)
    requires Index(call, "function") == Ok(invoked) && Index(invoked, "name") == Ok(name)
    requires Index(invoked, "arguments") == Ok(args) && args.Obj? && StringKeys(args.fields)
    requires KeyOf(name).Ok? && OrderedMap.Get(tools, KeyOf(name).value) == Some(tool)
    ensures CallResult(tools, base, http, call) ==
      Ok([Obj([(KStr("tool"), name), (KStr("result"), ToolResult(base, tool.name, args.fields, http))])])
  {
  }

  /** The assistant message recording the model's calls. */
  function CallRecord(content: Value, calls: Value): Value {
    Obj([(KStr("role"), Str("assistant")), (KStr("content"), content), (KStr("tool_calls"), calls)])
  }

  /**
   * The turn with calls: record the calls and their results, then ask again.
   * The conversation keeps whatever was appended before an exception.
   */
  function CallsTurn(conversation: seq<Value>, message: Value, calls: Value, results: seq<Value>,
                     model: string, chat: ChatModel, dumps: Encoder): (Option<Value>, seq<Value>)
    requires message.Obj?
  {
    var recorded := conversation + [CallRecord(Lookup(message.fields, "content", Str("")), calls),
                                    Msg("tool", Str(dumps(Arr(results))))];
    match AskContent(chat, ChatCall(model, recorded, None))
    case Err(_) => (None, recorded)
    case Ok(final) => (Some(final), recorded + [Msg("assistant", final)])
  }

  /** `_try_native_tools`: the answer, absent when anything raised, and the conversation it leaves. */
  function NativeTurn(conversation: seq<Value>, tools: Registry, offered: seq<Value>, model: string, base: string,
                      chat: ChatModel, http: Transport, dumps: Encoder): (Option<Value>, seq<Value>)
  {
    match AskMessage(chat, ChatCall(model, conversation, Some(offered)))
    case Err(_) => (None, conversation)
    case Ok(message) =>
      match In("tool_calls", message)
      case Err(_) => (None, conversation)
      case Ok(wantsTools) =>
        if !wantsTools then
          match Index(message, "content")
          case Err(_) => (None, conversation)
          case Ok(content) => (Some(content), conversation + [Msg("assistant", content)])
        else
          match Index(message, "tool_calls")
          case Err(_) => (None, conversation)
          case Ok(calls) =>
            match Iterate(calls)
            case Err(_) => (None, conversation)
            case Ok(items) =>
              match ConcatMap(items, CallStep(tools, base, http))
              case Err(_) => (None, conversation)
              case Ok(results) => CallsTurn(conversation, message, calls, results, model, chat, dumps)
  }

  /** Native calling keeps the conversation and adds at most three messages. */
  lemma NativeTurnExtends(conversation: seq<Value>, tools: Registry, offered: seq<Value>, model: string, base: string,
                          chat: ChatModel, http: Transport, dumps: Encoder)
    ensures var after := NativeTurn(conversation, tools, offered, model, base, chat, http, dumps).1;
      |conversation| <= |after| <= |conversation| + 3 && after[..|conversation|] == conversation
  {
    var after := NativeTurn(conversation, tools, offered, model, base, chat, http, dumps).1;
    assert after[..|conversation|] == conversation;
  }

  /* ---------------------------------------------------------------- */
  /* Prompt-based fallback                                            */
  /* ---------------------------------------------------------------- */

  /** A tool's line in the fallback prompt; the types default to `any`. */
  function FallbackLine(tool: Tool): Py<seq<string>> {
    var properties :- GetOr(tool.parameters, "properties", EMPTY);
    var params :- ParamList(properties);
    Ok([PromptLine(tool.name, params, tool.description)])
  }

  /**
   * The fallback descriptions list every registered tool, in registry order,
   * with its name, its parameters and its description.
   */
  lemma {:induction false} FallbackLinesAll(tools: Registry)
    ensures ConcatMap(OrderedMap.Values(tools), FallbackLine).Ok? <==>
      forall j :: 0 <= j < |tools| ==> FallbackLine(tools[j].1).Ok?
    ensures ConcatMap(OrderedMap.Values(tools), FallbackLine).Ok? ==>
      var lines := ConcatMap(OrderedMap.Values(tools), FallbackLine).value;
      && |lines| == |tools|
      && forall i :: 0 <= i < |tools| ==>
           FallbackLine(tools[i].1).Ok? &&
           lines[i] == PromptLine(tools[i].1.name, ParamList(Lookup(tools[i].1.parameters.fields, "properties", EMPTY)).value,
                                  tools[i].1.description)
  {
    var vs := OrderedMap.Values(tools);
    forall j | 0 <= j < |tools|
      ensures vs[j] == tools[j].1
    {
      ValuesAt(tools, j);
    }
    ConcatMapOk(vs, FallbackLine);
    if ConcatMap(vs, FallbackLine).Ok? && tools != [] {
      ConcatMapSingles(vs, FallbackLine, 0);
      forall i | 0 <= i < |tools|
        ensures FallbackLine(vs[i]).Ok? && ConcatMap(vs, FallbackLine).value[i] == FallbackLine(vs[i]).value[0]
      {
        ConcatMapSingles(vs, FallbackLine, i);
      }
    }
  }

  const FALLBACK_INTRO := "You are a helpful AI assistant with access to these tools:\n\n"

  const FALLBACK_FORMAT :=
    "\n\nTo use a tool, respond with ONLY a JSON object in this format:\n"
    + "{\"tool\": \"tool_name\", \"parameters\": {\"param1\": value1, \"param2\": value2}}\n\n"
    + "After I provide the tool result, give a natural response to the user."

  /** The fallback's system prompt around the tool descriptions. */
  function FallbackPrompt(descriptions: string): string {
    FALLBACK_INTRO + descriptions + FALLBACK_FORMAT
  }

  function FallbackMessages(lines: seq<string>, input: string): seq<Value> {
    [Msg("system", Str(FallbackPrompt(Join(lines, "\n")))), Msg("user", Str(input))]
  }

  /** The call branch of the fallback: run the registered tool and ask again with its result. */
  function FallbackCall(tools: Registry, messages: seq<Value>, content: Value, call: Value, model: string,
                        base: string, chat: ChatModel, http: Transport, dumps: Encoder): Py<Value>
  {
    var name :- Index(call, "tool");
    var key :- KeyOf(name);
    match OrderedMap.Get(tools, key)
    case None => Ok(content)
    case Some(tool) =>
      var parameters :- Index(call, "parameters");
      var kwargs :- Kwargs(parameters);
      var result := ToolResult(base, tool.name, kwargs, http);
      var followUp := messages + [Msg("assistant", content), Msg("user", Str("Tool result: " + dumps(result)))];
      AskContent(chat, ChatCall(model, followUp, None))
  }

  /** `_fallback_tool_calling`: it has its own message list and leaves the conversation alone. */
  function FallbackTurn(tools: Registry, input: string, model: string, base: string, chat: ChatModel,
                        http: Transport, decode: Decoder, dumps: Encoder): Py<Value>
  {
    var lines :- ConcatMap(OrderedMap.Values(tools), FallbackLine);
    var messages := FallbackMessages(lines, input);
    var content :- AskContent(chat, ChatCall(model, messages, None));
    FallbackAnswer(tools, messages, content, model, base, chat, http, decode, dumps)
  }

  /** What the fallback makes of the model's reply: the reply itself unless it calls a registered tool. */
  function FallbackAnswer(tools: Registry, messages: seq<Value>, content: Value, model: string, base: string,
                          chat: ChatModel, http: Transport, decode: Decoder, dumps: Encoder): Py<Value>
  {
    var call := ParseCallQuietly(content, decode);
    if call.None? || !Truthy(call.value) then Ok(content)
    else FallbackCall(tools, messages, content, call.value, model, base, chat, http, dumps)
  }

  /**
   * A reply without a readable call, or whose call names an unregistered
   * tool, is returned verbatim and runs nothing.
   */
  lemma FallbackVerbatim(tools: Registry, input: string, model: string, base: string, chat: ChatModel,
                         http: Transport, other: Transport, decode: Decoder, dumps: Encoder, content: Value)
    requires ConcatMap(OrderedMap.Values(tools), FallbackLine).Ok?
    requires AskContent(chat, ChatCall(model, FallbackMessages(ConcatMap(OrderedMap.Values(tools), FallbackLine).value, input), None))
               == Ok(content)
    requires var call := ParseCallQuietly(content, decode);
      call.None? ||
      (Index(call.value, "tool").Ok? && KeyOf(Index(call.value, "tool").value).Ok? &&
       KeyOf(Index(call.value, "tool").value).value !in OrderedMap.Keys(tools))
    ensures FallbackTurn(tools, input, model, base, chat, http, decode, dumps) == Ok(content)
    ensures FallbackTurn(tools, input, model, base, chat, other, decode, dumps) == Ok(content)
  {
  }

  /* ---------------------------------------------------------------- */
  /* A chat turn                                                      */
  /* ---------------------------------------------------------------- */

  /**
   * `chat_with_tools`: record the user's message, try native calling, and
   * fall back to the prompt when that gives no truthy answer; an exception
   * in the fallback becomes the apology reply.
   */
  function ChatTurn(conversation: seq<Value>, tools: Registry, input: string, model: string, base: string,
                    chat: ChatModel, http: Transport, decode: Decoder, dumps: Encoder): (Value, seq<Value>)
  {
    var asked := conversation + [Msg("user", Str(input))];
    var (native, after) := NativeTurn(asked, tools, Offered(tools), model, base, chat, http, dumps);
    if native.Some? && Truthy(native.value) then (native.value, after)
    else
      match FallbackTurn(tools, input, model, base, chat, http, decode, dumps)
      case Ok(reply) => (reply, after)
      case Err(e) => (Sorry(Message(e)), after)
  }

  /**
   * The conversation keeps what it held and the user's message, and only
   * native calling adds to it: the fallback never does.
   */
  lemma ChatTurnConversation(conversation: seq<Value>, tools: Registry, input: string, model: string, base: string,
                             chat: ChatModel, http: Transport, decode: Decoder, dumps: Encoder)
    ensures var asked := conversation + [Msg("user", Str(input))];
      var after := ChatTurn(conversation, tools, input, model, base, chat, http, decode, dumps).1;
      && after == NativeTurn(asked, tools, Offered(tools), model, base, chat, http, dumps).1
      && |asked| <= |after| <= |asked| + 3
      && after[..|asked|] == asked
  {
    var asked := conversation + [Msg("user", Str(input))];
    NativeTurnExtends(asked, tools, Offered(tools), model, base, chat, http, dumps);
  }

  /* ---------------------------------------------------------------- */
  /* The client object                                                */
  /* ---------------------------------------------------------------- */

  class ToolClient {
    const model: string
    const openmcpBase: string
    var tools: Registry
    var conversation: seq<Value>

    constructor (model: string, openmcpBase: string)
      ensures this.model == model && this.openmcpBase == openmcpBase
      ensures tools == [] && conversation == []
    {
      this.model := model;
      this.openmcpBase := openmcpBase;
      tools := [];
      conversation := [];
    }

    /** `discover_and_register_tools`. */
    method DiscoverAndRegisterTools(http: Transport) returns (registered: seq<Tool>)
      modifies this
      ensures (registered, tools) == Discover(old(tools), openmcpBase, http)
      ensures conversation == old(conversation)
    {
      var outcome := http(ListRequest(openmcpBase));
      if outcome.Failed? || outcome.response.status != 200 {
        return [];
      }
      var data := DecodeJson(outcome.response);
      if data.Err? {
        return [];
      }
      var listed := Index(data.value, "tools");
      if listed.Err? {
        return [];
      }
      var items := Iterate(listed.value);
      if items.Err? {
        return [];
      }
      var error := RegisterEntries(items.value);
      if error.Some? {
        return [];
      }
      registered := OrderedMap.Values(tools);
    }

    /** The registration loop of `discover_and_register_tools`; it stops at the first exception. */
    method RegisterEntries(entries: seq<Value>) returns (error: Option<PyError>)
      modifies this
      ensures Progress(tools, error) == RegisterAll(old(tools), entries)
      ensures conversation == old(conversation)
    {
      ghost var before := tools;
      for i := 0 to |entries|
        invariant RegisterAll(before, entries[..i]) == Progress(tools, None)
        invariant conversation == old(conversation)
      {
        assert entries[..i + 1][..i] == entries[..i];
        var made := MakeTool(entries[i]);
        if made.Err? {
          assert RegisterAll(before, entries[..i + 1]) == Progress(tools, Some(made.error));
          RegisterAllErrSticks(before, entries, i + 1);
          return Some(made.error);
        }
        tools := OrderedMap.Put(tools, made.value.0, made.value.1);
      }
      assert entries[..|entries|] == entries;
      error := None;
    }

    /** `chat_with_tools`. */
    method ChatWithTools(input: string, chat: ChatModel, http: Transport, decode: Decoder, dumps: Encoder)
      returns (reply: Value)
      modifies this
      ensures (reply, conversation) ==
        ChatTurn(old(conversation), tools, input, model, openmcpBase, chat, http, decode, dumps)
      ensures tools == old(tools)
    {
      conversation := conversation + [Msg("user", Str(input))];
      var offered := Offered(tools);
      var native := TryNativeTools(offered, chat, http, dumps);
      if native.Some? && Truthy(native.value) {
        return native.value;
      }
      var fallback := FallbackToolCalling(input, chat, http, decode, dumps);
      if fallback.Err? {
        return Sorry(Message(fallback.error));
      }
      reply := fallback.value;
    }

    /** `_try_native_tools`. */
    method TryNativeTools(offered: seq<Value>, chat: ChatModel, http: Transport, dumps: Encoder)
      returns (answer: Option<Value>)
      modifies this
      ensures (answer, conversation) ==
        NativeTurn(old(conversation), tools, offered, model, openmcpBase, chat, http, dumps)
      ensures tools == old(tools)
    {
      var message := AskMessage(chat, ChatCall(model, conversation, Some(offered)));
      if message.Err? {
        return None;
      }
      var wantsTools := In("tool_calls", message.value);
      if wantsTools.Err? {
        return None;
      }
      if !wantsTools.value {
        var content := Index(message.value, "content");
        if content.Err? {
          return None;
        }
        conversation := conversation + [Msg("assistant", content.value)];
        return Some(content.value);
      }
      var calls := Index(message.value, "tool_calls");
      if calls.Err? {
        return None;
      }
      var items := Iterate(calls.value);
      if items.Err? {
        return None;
      }
      var results := RunToolCalls(items.value, http);
      if results.Err? {
        return None;
      }
      answer := RecordCalls(message.value, calls.value, results.value, chat, dumps);
    }

    /** The end of `_try_native_tools` once the calls have run: record them and ask again. */
    method RecordCalls(message: Value, calls: Value, results: seq<Value>, chat: ChatModel, dumps: Encoder)
      returns (answer: Option<Value>)
      requires message.Obj?
      modifies this
      ensures (answer, conversation) == CallsTurn(old(conversation), message, calls, results, model, chat, dumps)
      ensures tools == old(tools)
    {
      var record := CallRecord(Lookup(message.fields, "content", Str("")), calls);
      var report := Msg("tool", Str(dumps(Arr(results))));
      ghost var before := conversation;
      conversation := conversation + [record];
      conversation := conversation + [report];
      assert conversation == before + [record, report];
      var final := AskContent(chat, ChatCall(model, conversation, None));
      if final.Err? {
        return None;
      }
      conversation := conversation + [Msg("assistant", final.value)];
      answer := Some(final.value);
    }

    /** The loop over the model's tool calls. */
    method RunToolCalls(calls: seq<Value>, http: Transport) returns (r: Py<seq<Value>>)
      ensures r == ConcatMap(calls, CallStep(tools, openmcpBase, http))
    {
      var results: seq<Value> := [];
      for i := 0 to |calls|
        invariant ConcatMap(calls[..i], CallStep(tools, openmcpBase, http)) == Ok(results)
      {
        ConcatMapStep(calls, i, CallStep(tools, openmcpBase, http));
        var result := CallResult(tools, openmcpBase, http, calls[i]);
        if result.Err? {
          ConcatMapErrSticks(calls, i + 1, CallStep(tools, openmcpBase, http));
          return Err(result.error);
        }
        results := results + result.value;
      }
      assert calls[..|calls|] == calls;
      r := Ok(results);
    }

    /** The loop building the fallback's tool descriptions. */
    method DescribeTools() returns (r: Py<seq<string>>)
      ensures r == ConcatMap(OrderedMap.Values(tools), FallbackLine)
    {
      var registered := OrderedMap.Values(tools);
      var lines: seq<string> := [];
      for i := 0 to |registered|
        invariant ConcatMap(registered[..i], FallbackLine) == Ok(lines)
      {
        ConcatMapStep(registered, i, FallbackLine);
        var line := FallbackLine(registered[i]);
        if line.Err? {
          ConcatMapErrSticks(registered, i + 1, FallbackLine);
          return Err(line.error);
        }
        lines := lines + line.value;
      }
      assert registered[..|registered|] == registered;
      r := Ok(lines);
    }

    /** `_fallback_tool_calling`. */
    method FallbackToolCalling(input: string, chat: ChatModel, http: Transport, decode: Decoder, dumps: Encoder)
      returns (r: Py<Value>)
      ensures r == FallbackTurn(tools, input, model, openmcpBase, chat, http, decode, dumps)
    {
      var lines := DescribeTools();
      if lines.Err? {
        return Err(lines.error);
      }
      var messages := FallbackMessages(lines.value, input);
      var content := AskContent(chat, ChatCall(model, messages, None));
      if content.Err? {
        return Err(content.error);
      }
      var call := ParseCallQuietly(content.value, decode);
      if call.None? || !Truthy(call.value) {
        return Ok(content.value);
      }
      r := FallbackCall(tools, messages, content.value, call.value, model, openmcpBase, chat, http, dumps);
      assert r == FallbackAnswer(tools, messages, content.value, model, openmcpBase, chat, http, decode, dumps);
    }

    /** `reset`. */
    method Reset()
      modifies this
      ensures conversation == [] && tools == old(tools)
    {
      conversation := [];
    }
  }
}
