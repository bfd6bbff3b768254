/**
 * The text protocol both chat clients speak with the language model: a tool
 * call is a JSON object somewhere in the model's reply, spanning from its
 * first `{` to its last `}`, with a `tool` and a `parameters` key; the tools
 * are offered to the model as lines `- name(k: type, ...): description`.
 *
 * The model itself is an oracle: a function from the request to the raw
 * response the `ollama` client returns. JSON decoding and encoding are
 * oracles too.
 */
module ToolText {
  import opened Wrappers
  import opened Strings
  import opened Values
  import OrderedMap

  /** `json.loads`: the decoded document, or `None` for a `JSONDecodeError`. */
  type Decoder = string -> Option<Value>

  /** `json.dumps`. */
  type Encoder = Value -> string

  /** What is handed to `client.chat`: the model name, the messages and, for native tool calling, the tools. */
  datatype ChatCall = ChatCall(model: string, messages: seq<Value>, tools: Option<seq<Value>>)

  /** The client's answer: the response document, or the message of the exception it raised. */
  datatype ChatReply = Responded(response: Value) | Broke(message: string)

  type ChatModel = ChatCall -> ChatReply

  /** `response['message']`. */
  function AskMessage(model: ChatModel, call: ChatCall): (r: Py<Value>)
    ensures model(call).Broke? ==> r == Err(Raised(model(call).message))
  {
    match model(call)
    case Broke(m) => Err(Raised(m))
    case Responded(response) => Index(response, "message")
  }

  /** `response['message']['content']`. */
  function AskContent(model: ChatModel, call: ChatCall): (r: Py<Value>)
    ensures r.Ok? ==> AskMessage(model, call).Ok? && Index(AskMessage(model, call).value, "content") == r
  {
    var message :- AskMessage(model, call);
    Index(message, "content")
  }

  /** A chat message `{"role": role, "content": content}`. */
  function Msg(role: string, content: Value): Value {
    Obj([(KStr("role"), Str(role)), (KStr("content"), content)])
  }

  /** Python's `s[i:j]` for `0 <= i` and `j <= |s|`: empty when `j` is not past `i`. */
  function Slice(s: string, i: nat, j: nat): (r: string)
    requires j <= |s|
    ensures i <= j ==> r == s[i..j]
    ensures j < i ==> r == ""
  {
    if i <= j then s[i..j] else ""
  }

  /**
   * The candidate JSON text: from the first `{` through the last `}`; absent
   * when the text has no `{` or no `}`.
   */
  function Span(text: string): (r: Option<string>)
    ensures r.None? <==> '{' !in text || '}' !in text
  {
    var start := FindChar(text, '{');
    var end := RFindChar(text, '}');
    if start == -1 || end == -1 then None else Some(Slice(text, start, end + 1))
  }

  /**
   * The span is the outermost braced stretch of the text: it opens with `{`
   * and closes with `}` (or is empty when every `}` precedes the first `{`),
   * no `{` stands before it and no `}` after it.
   */
  lemma SpanOutermost(text: string)
    requires '{' in text && '}' in text
    ensures var s := Span(text).value;
      && (|s| == 0 || (s[0] == '{' && s[|s| - 1] == '}'))
      && exists i :: 0 <= i <= |text| - |s| && text[i..i + |s|] == s && '{' !in text[..i] && '}' !in text[i + |s|..]
  {
    var start := FindChar(text, '{');
    var end := RFindChar(text, '}');
    var s := Span(text).value;
    if start <= end + 1 {
      assert s == text[start..end + 1];
      assert text[start..start + |s|] == s;
    } else {
      assert s == "";
      assert text[start..start + |s|] == s;
    }
    assert '{' !in text[..start];
    assert '}' !in text[start + |s|..];
  }

  /** `'tool' in data and 'parameters' in data`, evaluated left to right. */
  function HasCallKeys(data: Value): (r: Py<bool>)
    ensures data.Obj? ==> r == Ok(KStr("tool") in OrderedMap.Keys(data.fields) && KStr("parameters") in OrderedMap.Keys(data.fields))
    ensures r.Err? <==> data.Null? || data.Bool? || data.Int?
  {
    var hasTool :- In("tool", data);
    if hasTool then In("parameters", data) else Ok(false)
  }

  /**
   * The body of the tool-call parser up to its `try`: a reply that is not a
   * string fails at `.find`, a `JSONDecodeError` gives no call, and a decoded
   * document is a call exactly when it has both keys. The key test can raise
   * on a document that is a number, a boolean or `null`.
   */
  function ParseCall(text: Value, decode: Decoder): (r: Py<Option<Value>>)
    ensures r.Err? ==> !text.Str? || (Span(text.s).Some? && decode(Span(text.s).value).Some?)
  {
    if !text.Str? then Err(AttributeError("'" + TypeName(text) + "' object has no attribute 'find'"))
    else
      match Span(text.s)
      case None => Ok(None)
      case Some(candidate) =>
        match decode(candidate)
        case None => Ok(None)
        case Some(data) =>
          match HasCallKeys(data)
          case Err(e) => Err(e)
          case Ok(found) => Ok(if found then Some(data) else None)
  }

  /** A reply without a `{` or without a `}` carries no tool call. */
  lemma ParseCallNeedsBraces(text: string, decode: Decoder)
    requires '{' !in text || '}' !in text
    ensures ParseCall(Str(text), decode) == Ok(None)
  {
  }

  /**
   * A call is found exactly when the span decodes to a document with both keys,
   * and the call is that document unchanged.
   */
  lemma ParseCallFinds(text: string, decode: Decoder, data: Value)
    ensures ParseCall(Str(text), decode) == Ok(Some(data)) <==>
      && Span(text).Some?
      && decode(Span(text).value) == Some(data)
      && HasCallKeys(data) == Ok(true)
  {
  }

  /** An object is accepted as a call exactly when it has both a `tool` and a `parameters` key. */
  lemma ParseCallObject(text: string, decode: Decoder, fields: Fields)
    requires Span(text).Some? && decode(Span(text).value) == Some(Obj(fields))
    ensures ParseCall(Str(text), decode) ==
      Ok(if KStr("tool") in OrderedMap.Keys(fields) && KStr("parameters") in OrderedMap.Keys(fields)
         then Some(Obj(fields)) else None)
  {
  }

  /** The parser with a bare `except:` around it: every exception means "no call". */
  function ParseCallQuietly(text: Value, decode: Decoder): (r: Option<Value>)
    ensures ParseCall(text, decode).Ok? ==> r == ParseCall(text, decode).value
    ensures ParseCall(text, decode).Err? ==> r.None?
  {
    match ParseCall(text, decode)
    case Ok(call) => call
    case Err(_) => None
  }

  /** One `f"{k}: {v.get('type', 'any')}"` entry of a parameter list. */
  function ParamEntry(entry: (Key, Value)): (r: Py<seq<string>>)
    ensures r.Ok? <==> entry.1.Obj?
    ensures r.Ok? ==> r.value == [PyStr(KeyValue(entry.0)) + ": " + PyStr(Lookup(entry.1.fields, "type", Str("any")))]
  {
    var kind :- GetOr(entry.1, "type", Str("any"));
    Ok([PyStr(KeyValue(entry.0)) + ": " + PyStr(kind)])
  }

  /** `", ".join(f"{k}: {v.get('type', 'any')}" for k, v in params.items())`. */
  function ParamList(params: Value): Py<string> {
    var entries :- Items(params);
    var parts :- ConcatMap(entries, ParamEntry);
    Ok(Join(parts, ", "))
  }

  /**
   * The parameter list succeeds exactly on a dict whose every value is a dict,
   * and then names every parameter in order with its type, `any` when absent.
   */
  lemma ParamListEntries(params: Value, i: nat)
    requires params.Obj? && i < |params.fields|
    ensures ParamList(params).Ok? <==> forall j :: 0 <= j < |params.fields| ==> params.fields[j].1.Obj?
    ensures ParamList(params).Ok? ==>
      var parts := ConcatMap(params.fields, ParamEntry).value;
      && ParamList(params).value == Join(parts, ", ")
      && |parts| == |params.fields|
      && parts[i] == PyStr(KeyValue(params.fields[i].0)) + ": " + PyStr(Lookup(params.fields[i].1.fields, "type", Str("any")))
  {
    ConcatMapOk(params.fields, ParamEntry);
    if ParamList(params).Ok? {
      ConcatMapSingles(params.fields, ParamEntry, i);
    }
  }

  /** A tool's line in a prompt: `- name(params): description`. */
  function PromptLine(name: Value, params: string, description: Value): (r: string)
    ensures StartsWith(r, "- " + PyStr(name) + "(" + params + "): ")
    ensures r[|"- " + PyStr(name) + "(" + params + "): "|..] == PyStr(description)
  {
    var head := "- " + PyStr(name) + "(" + params + "): ";
    var r := head + PyStr(description);
    assert r[..|head|] == head;
    r
  }

  /** The reply of a client whose `try` caught an exception. */
  function Sorry(message: string): Value {
    Str("Sorry, I encountered an error: " + message)
  }
}
