/**
 * The prompt-based chat client (`OllamaIntegration`): it fetches the tool
 * list from the server, describes the tools in the system prompt, looks for
 * a JSON tool call in the model's reply, runs the call through the server
 * and feeds the result back to the model, keeping the conversation history.
 */
module OllamaIntegration {
  import opened Wrappers
  import opened Strings
  import opened Values
  import opened Http
  import opened ToolText
  import OrderedMap

  /** `OllamaConfig`; the sampling temperature is passed to the model and not modelled. */
  datatype Config = Config(host: string, model: string, systemPrompt: string)

  const DEFAULT_CONFIG: Config := Config(
    "http://localhost:11434",
    "llama3.2",
    "You are a helpful AI assistant with access to various tools through OpenMCP.\n"
    + "When you need to use a tool, respond with a JSON object in this format:\n"
    + "{\"tool\": \"tool_name\", \"parameters\": {...}}\n\n"
    + "Available tools will be listed at the start of our conversation.")

  const NO_TOOLS := "No tools are currently available."

  /* ---------------------------------------------------------------- */
  /* Tool discovery                                                   */
  /* ---------------------------------------------------------------- */

  function ListRequest(base: string): Request {
    Get(base + "/api/tools/list", [])
  }

  /**
   * `discover_tools`: what it returns and what `available_tools` becomes.
   * Any failure (no answer, a status other than 200, a body that is not JSON,
   * no `tools` key) returns `[]` and keeps the tools known before.
   */
  function Discovery(known: Value, base: string, http: Transport): (Value, Value) {
    match http(ListRequest(base))
    case Failed(_) => (Arr([]), known)
    case Answered(response) =>
      if response.status != 200 then (Arr([]), known)
      else
        match DecodeJson(response)
        case Err(_) => (Arr([]), known)
        case Ok(data) =>
          match Index(data, "tools")
          case Err(_) => (Arr([]), known)
          case Ok(tools) => (tools, tools)
  }

  /** Discovery either adopts and returns the server's list, or returns `[]` and changes nothing. */
  lemma DiscoveryAdoptsOrKeeps(known: Value, base: string, http: Transport)
    ensures var (returned, now) := Discovery(known, base, http);
      (returned == now) || (returned == Arr([]) && now == known)
    ensures var (returned, now) := Discovery(known, base, http);
      now != known ==>
        && http(ListRequest(base)).Answered?
        && http(ListRequest(base)).response.status == 200
        && DecodeJson(http(ListRequest(base)).response).Ok?
        && Index(DecodeJson(http(ListRequest(base)).response).value, "tools") == Ok(now)
  {
  }

  /* ---------------------------------------------------------------- */
  /* The tool list in the prompt                                      */
  /* ---------------------------------------------------------------- */

  /** One tool's line: parameters' types, `any` when missing; `No description` when it has none. */
  function ToolLine(tool: Value): Py<seq<string>> {
    var declared :- GetOr(tool, "parameters", EMPTY);
    var properties :- GetOr(declared, "properties", EMPTY);
    var params :- ParamList(properties);
    var name :- Index(tool, "name");
    var description := Lookup(tool.fields, "description", Str("No description"));
    Ok([PromptLine(name, params, description)])
  }

  /** A line for a tool is a single line, and a tool that is not a dict has none. */
  lemma ToolLineIsSingle(tool: Value)
    ensures ToolLine(tool).Ok? ==> tool.Obj? && |ToolLine(tool).value| == 1
  {
  }

  /** A named tool without parameters or description: `- name(): No description`. */
  lemma ToolLineDefaults(name: string)
    ensures ToolLine(Obj([(KStr("name"), Str(name))])) == Ok(["- " + name + "(): No description"])
  {
    var tool := Obj([(KStr("name"), Str(name))]);
    assert OrderedMap.Get(tool.fields, KStr("parameters")) == None;
    assert OrderedMap.Get(tool.fields, KStr("description")) == None;
    assert ConcatMap([], ParamEntry) == Ok([]);
    assert ParamList(EMPTY) == Ok("");
    assert ToolLine(tool) == Ok([PromptLine(Str(name), "", Str("No description"))]);
    assert "- " + name + "(" + "" + "): " + "No description" == "- " + name + "(): No description";
  }

  /** `format_tools_for_prompt`. */
  function ToolsPrompt(tools: Value): Py<string> {
    if !Truthy(tools) then Ok(NO_TOOLS)
    else
      var items :- Iterate(tools);
      var lines :- ConcatMap(items, ToolLine);
      Ok("Available tools:\n" + Join(lines, "\n"))
  }

  /** With no tools the prompt says exactly that. */
  lemma ToolsPromptEmpty()
    ensures ToolsPrompt(Arr([])) == Ok(NO_TOOLS)
  {
  }

  /**
   * With a non-empty list the prompt is the heading followed by one line per
   * tool, in list order; it fails exactly when some tool's line fails.
   */
  lemma {:induction false} ToolsPromptLines(items: seq<Value>, i: nat)
    requires i < |items|
    ensures ToolsPrompt(Arr(items)).Ok? <==> forall j :: 0 <= j < |items| ==> ToolLine(items[j]).Ok?
    ensures ToolsPrompt(Arr(items)).Ok? ==>
      var lines := ConcatMap(items, ToolLine).value;
      && ToolsPrompt(Arr(items)).value == "Available tools:\n" + Join(lines, "\n")
      && |lines| == |items|
      && lines[i] == ToolLine(items[i]).value[0]
  {
    ConcatMapOk(items, ToolLine);
    if ToolsPrompt(Arr(items)).Ok? {
      forall t | ToolLine(t).Ok?
        ensures |ToolLine(t).value| == 1
      {
        ToolLineIsSingle(t);
      }
      ConcatMapSingles(items, ToolLine, i);
    }
  }

  /* ---------------------------------------------------------------- */
  /* Running a tool and reporting its result                          */
  /* ---------------------------------------------------------------- */

  function ExecuteRequest(base: string, tool: Value, parameters: Value): Request {
    Post(base + "/api/tools/execute", [(KStr("tool_name"), tool), (KStr("parameters"), parameters)])
  }

  /**
   * `execute_tool`: the server's JSON reply whatever its status, or
   * `{'error': str(e)}` when the request or the decoding raises.
   */
  function ExecuteTool(base: string, tool: Value, parameters: Value, http: Transport): (r: Value)
    ensures http(ExecuteRequest(base, tool, parameters)).Failed? ==>
      r == ErrorBody(http(ExecuteRequest(base, tool, parameters)).message)
  {
    match http(ExecuteRequest(base, tool, parameters))
    case Failed(m) => ErrorBody(m)
    case Answered(response) =>
      match DecodeJson(response)
      case Ok(v) => v
      case Err(e) => ErrorBody(Message(e))
  }

  /**
   * The server's decoded reply is passed on unchanged, error statuses
   * included; a reply that does not decode gives `{'error': message}`.
   */
  lemma ExecuteToolRelays(base: string, tool: Value, parameters: Value, http: Transport, response: Response)
    requires http(ExecuteRequest(base, tool, parameters)) == Answered(response)
    ensures response.body.Parsed? ==> ExecuteTool(base, tool, parameters, http) == response.body.doc
    ensures response.body.Malformed? ==> ExecuteTool(base, tool, parameters, http) == ErrorBody(response.body.message)
  {
  }

  /** The data's `expression` can neither be tested for nor read. */
  predicate ExpressionUnreadable(data: Value) {
    In("expression", data).Err? || (In("expression", data) == Ok(true) && Index(data, "expression").Err?)
  }

  /**
   * The text reported back for a tool's result. It raises only for a result
   * that is not a dict, or a success whose data's `expression` cannot be read.
   */
  function ResultMessage(result: Value, dumps: Encoder): (r: Py<string>)
    ensures r.Err? <==> (!result.Obj? || (Truthy(Lookup(result.fields, "success", Null)) &&
                                          ExpressionUnreadable(Lookup(result.fields, "data", EMPTY))))
  {
    match result
    case Obj(fields) =>
      if Truthy(Lookup(fields, "success", Null)) then
        var data := Lookup(fields, "data", EMPTY);
        var hasExpression :- In("expression", data);
        if hasExpression then
          var expression :- Index(data, "expression");
          Ok("Result: " + PyStr(expression))
        else Ok("Result: " + dumps(data))
      else Ok("Error: " + PyStr(Lookup(fields, "error", Str("Unknown error"))))
    case _ => Err(AttributeError("'" + TypeName(result) + "' object has no attribute 'get'"))
  }

  /** A success whose data has an `expression` reports that expression. */
  lemma ResultShowsExpression(fields: Fields, data: Fields, dumps: Encoder, expression: Value)
    requires Truthy(Lookup(fields, "success", Null)) && Lookup(fields, "data", EMPTY) == Obj(data)
    requires OrderedMap.Get(data, KStr("expression")) == Some(expression)
    ensures ResultMessage(Obj(fields), dumps) == Ok("Result: " + PyStr(expression))
  {
  }

  /** Any other successful data is reported as its JSON text. */
  lemma ResultDumpsData(fields: Fields, data: Fields, dumps: Encoder)
    requires Truthy(Lookup(fields, "success", Null)) && Lookup(fields, "data", EMPTY) == Obj(data)
    requires KStr("expression") !in OrderedMap.Keys(data)
    ensures ResultMessage(Obj(fields), dumps) == Ok("Result: " + dumps(Obj(data)))
  {
  }

  /** A failure reports its `error`, or `Unknown error` when there is none. */
  lemma ResultReportsError(fields: Fields, dumps: Encoder)
    requires !Truthy(Lookup(fields, "success", Null))
    ensures ResultMessage(Obj(fields), dumps) ==
      Ok("Error: " + (match OrderedMap.Get(fields, KStr("error"))
                      case Some(e) => PyStr(e)
                      case None => "Unknown error"))
  {
  }

  /* ---------------------------------------------------------------- */
  /* A chat turn                                                      */
  /* ---------------------------------------------------------------- */

  /** The assistant's announcement of the call it is about to run. */
  function Announcement(tool: Value, parameters: Value): Value {
    Msg("assistant", Str("I'll use the " + PyStr(tool) + " tool with parameters " + PyStr(parameters)))
  }

  function ToolResultNote(message: string): Value {
    Msg("user", Str("Tool result: " + message))
  }

  /**
   * A reply that carries a tool call: run it, record the announcement and the
   * result, and ask the model again with the result appended. Returns the
   * reply and the history it leaves.
   */
  function ToolRound(history: seq<Value>, messages: seq<Value>, content: Value, call: Value,
                     config: Config, base: string, model: ChatModel, http: Transport, dumps: Encoder)
    : (Value, seq<Value>)
  {
    match Index(call, "tool")
    case Err(e) => (Sorry(Message(e)), history)
    case Ok(tool) =>
      match Index(call, "parameters")
      case Err(e) => (Sorry(Message(e)), history)
      case Ok(parameters) =>
        var result := ExecuteTool(base, tool, parameters, http);
        var announced := history + [Announcement(tool, parameters)];
        match ResultMessage(result, dumps)
        case Err(e) => (Sorry(Message(e)), announced)
        case Ok(report) =>
          var noted := announced + [ToolResultNote(report)];
          var followUp := messages + [Msg("assistant", content), ToolResultNote(report)];
          match AskContent(model, ChatCall(config.model, followUp, None))
          case Err(e) => (Sorry(Message(e)), noted)
          case Ok(final) => (final, noted + [Msg("assistant", final)])
  }

  /** The `try` block of `chat`: every exception in it becomes the apology reply. */
  function Exchange(history: seq<Value>, messages: seq<Value>, config: Config, base: string,
                    model: ChatModel, http: Transport, decode: Decoder, dumps: Encoder)
    : (Value, seq<Value>)
  {
    match AskContent(model, ChatCall(config.model, messages, None))
    case Err(e) => (Sorry(Message(e)), history)
    case Ok(content) =>
      match ParseCall(content, decode)
      case Err(e) => (Sorry(Message(e)), history)
      case Ok(call) =>
        if call.Some? && Truthy(call.value) then
          ToolRound(history, messages, content, call.value, config, base, model, http, dumps)
        else (content, history + [Msg("assistant", content)])
  }

  /**
   * `chat`: the user's message is recorded first; a prompt that cannot be
   * formatted raises out of `chat`, since that happens before its `try`.
   */
  function Converse(history: seq<Value>, tools: Value, input: string, config: Config, base: string,
                    model: ChatModel, http: Transport, decode: Decoder, dumps: Encoder)
    : (Py<Value>, seq<Value>)
  {
    var asked := history + [Msg("user", Str(input))];
    match ToolsPrompt(tools)
    case Err(e) => (Err(e), asked)
    case Ok(prompt) =>
      var messages := [Msg("system", Str(config.systemPrompt + "\n\n" + prompt))] + asked;
      var (reply, after) := Exchange(asked, messages, config, base, model, http, decode, dumps);
      (Ok(reply), after)
  }

  /** A tool round keeps the history and adds at most three messages. */
  lemma ToolRoundExtends(history: seq<Value>, messages: seq<Value>, content: Value, call: Value,
                         config: Config, base: string, model: ChatModel, http: Transport, dumps: Encoder)
    ensures var after := ToolRound(history, messages, content, call, config, base, model, http, dumps).1;
      |history| <= |after| <= |history| + 3 && after[..|history|] == history
  {
    var after := ToolRound(history, messages, content, call, config, base, model, http, dumps).1;
    assert after[..|history|] == history;
  }

  /** The `try` block keeps the history and adds at most three messages. */
  lemma ExchangeExtends(history: seq<Value>, messages: seq<Value>, config: Config, base: string,
                        model: ChatModel, http: Transport, decode: Decoder, dumps: Encoder)
    ensures var after := Exchange(history, messages, config, base, model, http, decode, dumps).1;
      |history| <= |after| <= |history| + 3 && after[..|history|] == history
  {
    match AskContent(model, ChatCall(config.model, messages, None))
    case Err(_) =>
    case Ok(content) =>
      match ParseCall(content, decode)
      case Err(_) =>
      case Ok(call) =>
        if call.Some? && Truthy(call.value) {
          ToolRoundExtends(history, messages, content, call.value, config, base, model, http, dumps);
        } else {
          var after := history + [Msg("assistant", content)];
          assert after[..|history|] == history;
        }
  }

  /**
   * The history only grows: it keeps what it held, then the user's message,
   * then between none and three further messages.
   */
  lemma ConverseExtendsHistory(history: seq<Value>, tools: Value, input: string, config: Config, base: string,
                               model: ChatModel, http: Transport, decode: Decoder, dumps: Encoder)
    ensures var after := Converse(history, tools, input, config, base, model, http, decode, dumps).1;
      && |history| + 1 <= |after| <= |history| + 4
      && after[..|history| + 1] == history + [Msg("user", Str(input))]
  {
    var asked := history + [Msg("user", Str(input))];
    if ToolsPrompt(tools).Ok? {
      var messages := [Msg("system", Str(config.systemPrompt + "\n\n" + ToolsPrompt(tools).value))] + asked;
      ExchangeExtends(asked, messages, config, base, model, http, decode, dumps);
    }
  }

  /** A reply without a tool call is returned as is and recorded as the one assistant message. */
  lemma ConversePlainReply(history: seq<Value>, tools: Value, input: string, config: Config, base: string,
                           model: ChatModel, http: Transport, decode: Decoder, dumps: Encoder, content: string)
    requires ToolsPrompt(tools).Ok?
    requires var messages := [Msg("system", Str(config.systemPrompt + "\n\n" + ToolsPrompt(tools).value))]
                             + history + [Msg("user", Str(input))];
      AskContent(model, ChatCall(config.model, messages, None)) == Ok(Str(content))
    requires ParseCall(Str(content), decode) == Ok(None)
    ensures Converse(history, tools, input, config, base, model, http, decode, dumps) ==
      (Ok(Str(content)), history + [Msg("user", Str(input)), Msg("assistant", Str(content))])
  {
    var asked := history + [Msg("user", Str(input))];
    var messages := [Msg("system", Str(config.systemPrompt + "\n\n" + ToolsPrompt(tools).value))] + asked;
    assert messages == [Msg("system", Str(config.systemPrompt + "\n\n" + ToolsPrompt(tools).value))]
                       + history + [Msg("user", Str(input))];
    assert asked + [Msg("assistant", Str(content))] == history + [Msg("user", Str(input)), Msg("assistant", Str(content))];
  }

  /**
   * A completed tool round records four messages: the user's, the announcement,
   * the tool result and the model's final answer, which is also the reply.
   */
  lemma ToolRoundRecordsThree(history: seq<Value>, messages: seq<Value>, content: Value, call: Value,
                              config: Config, base: string, model: ChatModel, http: Transport, dumps: Encoder,
                              tool: Value, parameters: Value, report: string, final: Value)
    requires Index(call, "tool") == Ok(tool) && Index(call, "parameters") == Ok(parameters)
    requires ResultMessage(ExecuteTool(base, tool, parameters, http), dumps) == Ok(report)
    requires AskContent(model, ChatCall(config.model,
               messages + [Msg("assistant", content), ToolResultNote(report)], None)) == Ok(final)
    ensures ToolRound(history, messages, content, call, config, base, model, http, dumps) ==
      (final, history + [Announcement(tool, parameters), ToolResultNote(report), Msg("assistant", final)])
  {
    assert history + [Announcement(tool, parameters)] + [ToolResultNote(report)] + [Msg("assistant", final)]
      == history + [Announcement(tool, parameters), ToolResultNote(report), Msg("assistant", final)];
  }

  /* ---------------------------------------------------------------- */
  /* The client object                                                */
  /* ---------------------------------------------------------------- */

  class Integration {
    const config: Config
    const openmcpBase: string
    var availableTools: Value
    var history: seq<Value>

    constructor (config: Config, openmcpBase: string)
      ensures this.config == config && this.openmcpBase == openmcpBase
      ensures availableTools == Arr([]) && history == []
    {
      this.config := config;
      this.openmcpBase := openmcpBase;
      availableTools := Arr([]);
      history := [];
    }

    /** `discover_tools`. */
    method DiscoverTools(http: Transport) returns (tools: Value)
      modifies this
      ensures (tools, availableTools) == Discovery(old(availableTools), openmcpBase, http)
      ensures history == old(history)
    {
      var outcome := http(ListRequest(openmcpBase));
      if outcome.Failed? || outcome.response.status != 200 {
        return Arr([]);
      }
      var data := DecodeJson(outcome.response);
      if data.Err? {
        return Arr([]);
      }
      var listed := Index(data.value, "tools");
      if listed.Err? {
        return Arr([]);
      }
      availableTools := listed.value;
      tools := availableTools;
    }

    /** `format_tools_for_prompt`, with its loop over the tools. */
    method FormatToolsForPrompt() returns (r: Py<string>)
      ensures r == ToolsPrompt(availableTools)
    {
      if !Truthy(availableTools) {
        return Ok(NO_TOOLS);
      }
      var items := Iterate(availableTools);
      if items.Err? {
        return Err(items.error);
      }
      var tools := items.value;
      var lines: seq<string> := [];
      for i := 0 to |tools|
        invariant ConcatMap(tools[..i], ToolLine) == Ok(lines)
      {
        ConcatMapStep(tools, i, ToolLine);
        var line := ToolLine(tools[i]);
        if line.Err? {
          ConcatMapErrSticks(tools, i + 1, ToolLine);
          return Err(line.error);
        }
        lines := lines + line.value;
      }
      assert tools[..|tools|] == tools;
      r := Ok("Available tools:\n" + Join(lines, "\n"));
    }

    /** `chat`: one user turn, recorded in the history. */
    method Chat(input: string, model: ChatModel, http: Transport, decode: Decoder, dumps: Encoder)
      returns (reply: Py<Value>)
      modifies this
      ensures (reply, history) ==
        Converse(old(history), availableTools, input, config, openmcpBase, model, http, decode, dumps)
      ensures availableTools == old(availableTools)
    {
      history := history + [Msg("user", Str(input))];
      var prompt := FormatToolsForPrompt();
      if prompt.Err? {
        return Err(prompt.error);
      }
      var messages := [Msg("system", Str(config.systemPrompt + "\n\n" + prompt.value))] + history;
      var content := AskContent(model, ChatCall(config.model, messages, None));
      if content.Err? {
        return Ok(Sorry(Message(content.error)));
      }
      var call := ParseCall(content.value, decode);
      if call.Err? {
        return Ok(Sorry(Message(call.error)));
      }
      if call.value.Some? && Truthy(call.value.value) {
        var answer := RunToolCall(messages, content.value, call.value.value, model, http, dumps);
        return Ok(answer);
      }
      history := history + [Msg("assistant", content.value)];
      reply := Ok(content.value);
    }

    /** The tool-call branch of `chat`. */
    method RunToolCall(messages: seq<Value>, content: Value, call: Value, model: ChatModel, http: Transport, dumps: Encoder)
      returns (answer: Value)
      modifies this
      ensures (answer, history) ==
        ToolRound(old(history), messages, content, call, config, openmcpBase, model, http, dumps)
      ensures availableTools == old(availableTools)
    {
      var tool := Index(call, "tool");
      if tool.Err? {
        return Sorry(Message(tool.error));
      }
      var parameters := Index(call, "parameters");
      if parameters.Err? {
        return Sorry(Message(parameters.error));
      }
      var result := ExecuteTool(openmcpBase, tool.value, parameters.value, http);
      history := history + [Announcement(tool.value, parameters.value)];
      var report := ResultMessage(result, dumps);
      if report.Err? {
        return Sorry(Message(report.error));
      }
      history := history + [ToolResultNote(report.value)];
      var followUp := messages + [Msg("assistant", content), ToolResultNote(report.value)];
      var final := AskContent(model, ChatCall(config.model, followUp, None));
      if final.Err? {
        return Sorry(Message(final.error));
      }
      history := history + [Msg("assistant", final.value)];
      answer := final.value;
    }

    /** `reset_conversation`. */
    method ResetConversation()
      modifies this
      ensures history == [] && availableTools == old(availableTools)
    {
      history := [];
    }
  }
}
