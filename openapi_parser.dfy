/**
 * OpenAPI document -> AI tool descriptors (openmcp/core/openapi_parser.py).
 *
 * A loaded document is a `Value`. Extraction walks `paths` x operations, keeps
 * the operations that carry the `x-ai-tool` key, and parses each into an
 * `Endpoint`; conversion turns an endpoint into a flat `Tool` descriptor whose
 * parameters are one JSON-Schema-like object.
 */
module OpenApiParser {
  import opened Wrappers
  import opened Strings
  import opened Values
  import OrderedMap

  /** The path-item keys that name an operation. */
  const OPERATION_METHODS: seq<string> := ["get", "post", "put", "delete", "patch"]

  /** The validated `x-ai-*` extension of an operation (`AIToolExtension`). */
  datatype AiTool = AiTool(enabled: bool, description: string, category: Option<string>)

  /** One record of `ParsedEndpoint.parameters`. */
  datatype Param = Param(name: Value, location: Value, required: Value, description: Value, schema: Value)

  /** `ParsedEndpoint`. */
  datatype Endpoint = Endpoint(
    path: string,
    verb: string,
    summary: string,
    description: Option<string>,
    aiTool: Option<AiTool>,
    parameters: seq<Param>,
    requestBody: Option<Fields>,
    responses: Fields)

  /** The dictionary `convert_to_ai_format` returns. */
  datatype Tool = Tool(
    name: string,
    description: Value,
    properties: Fields,
    required: seq<Value>,
    url: string,
    verb: string)

  /** What a file-system path holds: nothing, something that fails to read or parse, or a document. */
  datatype FileState = Missing | Unreadable(error: PyError) | Loaded(doc: Value)

  type FileSystem = string -> FileState

  /* ---------------------------------------------------------------- */
  /* Parsing one operation                                            */
  /* ---------------------------------------------------------------- */

  /** The spellings a `bool` field accepts for true and for false, compared lower-cased. */
  const TRUE_WORDS: seq<string> := ["1", "on", "t", "true", "y", "yes"]
  const FALSE_WORDS: seq<string> := ["0", "off", "f", "false", "n", "no"]

  /** How a `bool` model field reads a value, or `None` when validation fails. */
  function BoolField(v: Value): Option<bool> {
    match v
    case Bool(b) => Some(b)
    case Int(n) => if n == 0 then Some(false) else if n == 1 then Some(true) else None
    case Str(s) =>
      if Lower(s) in TRUE_WORDS then Some(true)
      else if Lower(s) in FALSE_WORDS then Some(false)
      else None
    case _ => None
  }

  /**
   * Every key is a string: what `k.startswith('x-ai-')` needs of an operation,
   * and what `Dict[str, Any]` validation demands of a dict.
   */
  predicate StrKeys(op: Fields) {
    forall i :: 0 <= i < |op| ==> op[i].0.KStr?
  }

  /** A dict that `Dict[str, Any]` accepts. */
  predicate StrKeyDict(v: Value) {
    v.Obj? && StrKeys(v.fields)
  }

  /**
   * Building `AIToolExtension` from the `x-ai-*` keys: `x-ai-tool` must read as
   * a boolean, `x-ai-description` is a required string and `x-ai-category` an
   * optional string; anything else is a validation error.
   */
  function AiToolOf(op: Fields): (r: Py<AiTool>)
    ensures r.Ok? ==> StrKeys(op)
    ensures r.Ok? ==> Lookup(op, "x-ai-description", Null) == Str(r.value.description)
    ensures r.Ok? ==> BoolField(Lookup(op, "x-ai-tool", Bool(true))) == Some(r.value.enabled)
    ensures !Lookup(op, "x-ai-description", Null).Str? ==> r.Err?
    ensures StrKeys(op) && BoolField(Lookup(op, "x-ai-tool", Bool(true))).Some?
            && Lookup(op, "x-ai-description", Null).Str?
            && (Lookup(op, "x-ai-category", Null).Null? || Lookup(op, "x-ai-category", Null).Str?)
            ==> r.Ok?
  {
    if !StrKeys(op) then Err(AttributeError("object has no attribute 'startswith'"))
    else
      var enabled := BoolField(Lookup(op, "x-ai-tool", Bool(true)));
      var description := Lookup(op, "x-ai-description", Null);
      var category := Lookup(op, "x-ai-category", Null);
      if enabled.None? then Err(Raised("validation error for AIToolExtension: x-ai-tool"))
      else if !description.Str? then Err(Raised("validation error for AIToolExtension: x-ai-description"))
      else if category.Null? then Ok(AiTool(enabled.value, description.s, None))
      else if category.Str? then Ok(AiTool(enabled.value, description.s, Some(category.s)))
      else Err(Raised("validation error for AIToolExtension: x-ai-category"))
  }

  /** One parameter record; `required` defaults to false and `schema` to `{}`. */
  function ParamRecord(v: Value): (r: Py<Param>)
    ensures r.Ok? <==> v.Obj?
    ensures r.Ok? ==> r.value.name == Lookup(v.fields, "name", Null)
    ensures r.Ok? ==> r.value.location == Lookup(v.fields, "in", Null)
    ensures r.Ok? ==> r.value.required == Lookup(v.fields, "required", Bool(false))
    ensures r.Ok? ==> r.value.schema == Lookup(v.fields, "schema", EMPTY)
  {
    var name :- GetOr(v, "name", Null);
    Ok(Param(name, Lookup(v.fields, "in", Null), Lookup(v.fields, "required", Bool(false)),
             Lookup(v.fields, "description", Null), Lookup(v.fields, "schema", EMPTY)))
  }

  function ParamStep(v: Value): Py<seq<Param>> {
    var p :- ParamRecord(v);
    Ok([p])
  }

  /**
   * The JSON request-body schema: absent unless `requestBody.content` has an
   * `application/json` entry; a schema that is neither a dict nor null fails
   * validation.
   */
  function RequestBodyOf(op: Fields): (r: Py<Option<Fields>>)
    ensures KStr("requestBody") !in OrderedMap.Keys(op) ==> r == Ok(None)
    ensures r.Ok? && r.value.Some? ==>
      var body := Lookup(op, "requestBody", Null);
      body.Obj? && Lookup(body.fields, "content", EMPTY).Obj? &&
      var media := Lookup(Lookup(body.fields, "content", EMPTY).fields, "application/json", Null);
      media.Obj? && Lookup(media.fields, "schema", Null) == Obj(r.value.value)
  {
    match OrderedMap.Get(op, KStr("requestBody"))
    case None => Ok(None)
    case Some(body) =>
      var content :- GetOr(body, "content", EMPTY);
      var hasJson :- In("application/json", content);
      if !hasJson then Ok(None)
      else
        var media :- Index(content, "application/json");
        var schema :- GetOr(media, "schema", Null);
        match schema
        case Null => Ok(None)
        case Obj(fields) => Ok(Some(fields))
        case _ => Err(Raised("validation error for ParsedEndpoint: request_body"))
  }

  function OptionalString(v: Value, field: string): Py<Option<string>> {
    match v
    case Null => Ok(None)
    case Str(s) => Ok(Some(s))
    case _ => Err(Raised("validation error for ParsedEndpoint: " + field))
  }

  /** The body of the `try` in `_parse_endpoint`, given the parameter records. */
  function BuildEndpoint(path: string, verb: string, op: Fields, baseUrl: string, params: seq<Param>)
    : (r: Py<Endpoint>)
    ensures r.Ok? ==> r.value.path == baseUrl + path && r.value.verb == Upper(verb)
    ensures r.Ok? ==> r.value.parameters == params
    ensures r.Ok? ==> (r.value.aiTool.Some? <==> Truthy(Lookup(op, "x-ai-tool", Null)))
    ensures r.Ok? && r.value.aiTool.Some? ==> AiToolOf(op) == Ok(r.value.aiTool.value)
    ensures Truthy(Lookup(op, "x-ai-tool", Null)) && AiToolOf(op).Err? ==> r.Err?
    ensures r.Ok? ==> RequestBodyOf(op) == Ok(r.value.requestBody)
    ensures r.Ok? ==> Lookup(op, "responses", EMPTY) == Obj(r.value.responses) && StrKeys(r.value.responses)
    ensures r.Ok? && r.value.requestBody.Some? ==> StrKeys(r.value.requestBody.value)
    ensures !StrKeyDict(Lookup(op, "responses", EMPTY)) ==> r.Err?
    ensures RequestBodyOf(op).Ok? && RequestBodyOf(op).value.Some? && !StrKeys(RequestBodyOf(op).value.value) ==> r.Err?
  {
    var aiTool :- if Truthy(Lookup(op, "x-ai-tool", Null))
      then (var t :- AiToolOf(op); Ok(Some(t)))
      else Ok(None);
    var body :- RequestBodyOf(op);
    var summary := Lookup(op, "summary", Str(""));
    var description :- OptionalString(Lookup(op, "description", Null), "description");
    var responses := Lookup(op, "responses", EMPTY);
    if !summary.Str? then Err(Raised("validation error for ParsedEndpoint: summary"))
    else if !StrKeyDict(responses) then Err(Raised("validation error for ParsedEndpoint: responses"))
    else if body.Some? && !StrKeys(body.value) then Err(Raised("validation error for ParsedEndpoint: request_body"))
    else Ok(Endpoint(baseUrl + path, Upper(verb), summary.s, description, aiTool,
                     params, body, responses.fields))
  }

  function TryParseEndpoint(path: string, verb: string, operation: Value, baseUrl: string): Py<Endpoint> {
    var fields :- Items(operation);
    var items :- Iterate(Lookup(fields, "parameters", Arr([])));
    var params :- ConcatMap(items, ParamStep);
    BuildEndpoint(path, verb, fields, baseUrl, params)
  }

  /**
   * `_parse_endpoint`: any exception inside it makes the operation be skipped.
   * The record's path is the base URL followed by the raw path key and its
   * method is the upper-cased key. A truthy `x-ai-tool` without a string
   * `x-ai-description` drops the operation; a falsy one leaves `ai_tool` unset.
   */
  function ParseEndpointSpec(path: string, verb: string, operation: Value, baseUrl: string)
    : (r: Option<Endpoint>)
    ensures r.Some? ==> operation.Obj?
    ensures r.Some? ==> r.value.path == baseUrl + path && r.value.verb == Upper(verb)
    ensures operation.Obj? && Truthy(Lookup(operation.fields, "x-ai-tool", Null))
            && !Lookup(operation.fields, "x-ai-description", Null).Str?
            ==> r.None?
    ensures r.Some? ==> (r.value.aiTool.Some? <==> Truthy(Lookup(operation.fields, "x-ai-tool", Null)))
    ensures r.Some? && r.value.aiTool.Some? ==>
      Lookup(operation.fields, "x-ai-description", Null) == Str(r.value.aiTool.value.description)
  {
    match TryParseEndpoint(path, verb, operation, baseUrl)
    case Ok(e) => Some(e)
    case Err(_) => None
  }

  /* ---------------------------------------------------------------- */
  /* Extraction                                                       */
  /* ---------------------------------------------------------------- */

  /** `servers[0]['url'] if servers else ''`, as the f-string renders it. */
  function BaseUrl(servers: Value): (r: Py<string>)
    ensures !Truthy(servers) ==> r == Ok("")
    ensures servers.Arr? && |servers.items| > 0 && servers.items[0].Obj? ==>
      r == (match OrderedMap.Get(servers.items[0].fields, KStr("url"))
            case Some(u) => Ok(PyStr(u))
            case None => Err(KeyError(KStr("url"))))
  {
    if !Truthy(servers) then Ok("")
    else
      var first :- IndexAt(servers, 0);
      var url :- Index(first, "url");
      Ok(PyStr(url))
  }

  /** How a path key is written into a URL. */
  function PathText(k: Key): string {
    PyStr(KeyValue(k))
  }

  /** An operation key `extract_ai_tools` looks at, whose operation contains `x-ai-tool`. */
  predicate Marked(verb: Key, op: Value) {
    verb.KStr? && verb.s in OPERATION_METHODS && In("x-ai-tool", op) == Ok(true)
  }

  /** What one `(verb, operation)` pair of a path item contributes. */
  function OperationSpec(path: string, baseUrl: string, entry: (Key, Value)): (r: Py<seq<Endpoint>>)
    ensures r.Ok? ==> |r.value| <= 1
    ensures r.Ok? && |r.value| == 1 ==>
      Marked(entry.0, entry.1) && ParseEndpointSpec(path, entry.0.s, entry.1, baseUrl) == Some(r.value[0])
    ensures Marked(entry.0, entry.1) ==>
      r == (match ParseEndpointSpec(path, entry.0.s, entry.1, baseUrl)
            case Some(e) => Ok([e])
            case None => Ok([]))
    ensures !(entry.0.KStr? && entry.0.s in OPERATION_METHODS) ==> r == Ok([])
  {
    var (verb, op) := entry;
    if verb.KStr? && verb.s in OPERATION_METHODS then
      var marked :- In("x-ai-tool", op);
      if marked then
        match ParseEndpointSpec(path, verb.s, op, baseUrl)
        case Some(e) => Ok([e])
        case None => Ok([])
      else Ok([])
    else Ok([])
  }

  function OperationStep(path: string, baseUrl: string): ((Key, Value)) -> Py<seq<Endpoint>> {
    entry => OperationSpec(path, baseUrl, entry)
  }

  /** What one path item contributes: `path_item.items()` must be a dict. */
  function PathItemSpec(baseUrl: string, entry: (Key, Value)): Py<seq<Endpoint>> {
    var ops :- Items(entry.1);
    ConcatMap(ops, OperationStep(PathText(entry.0), baseUrl))
  }

  function PathStep(baseUrl: string): ((Key, Value)) -> Py<seq<Endpoint>> {
    entry => PathItemSpec(baseUrl, entry)
  }

  /** `spec.get('servers', [])` and `spec.get('paths', {})` of a document that is a dict. */
  function ServersOf(spec: Value): Value
    requires spec.Obj?
  {
    Lookup(spec.fields, "servers", Arr([]))
  }

  function PathsOf(spec: Value): Value
    requires spec.Obj?
  {
    Lookup(spec.fields, "paths", EMPTY)
  }

  /** `extract_ai_tools`, as a function of the document. */
  function ExtractSpec(spec: Value): Py<seq<Endpoint>> {
    var paths :- GetOr(spec, "paths", EMPTY);
    var baseUrl :- BaseUrl(ServersOf(spec));
    var items :- Items(paths);
    ConcatMap(items, PathStep(baseUrl))
  }

  /** Endpoint `e` is what operation `op` of path item `path` parses to, and `op` is a marked method. */
  predicate Yields(baseUrl: string, path: (Key, Value), op: (Key, Value), e: Endpoint) {
    && path.1.Obj?
    && op in path.1.fields
    && Marked(op.0, op.1)
    && ParseEndpointSpec(PathText(path.0), op.0.s, op.1, baseUrl) == Some(e)
  }

  /** What one path item yields comes from one of its marked operations. */
  lemma PathItemSound(baseUrl: string, path: (Key, Value), e: Endpoint)
    requires PathItemSpec(baseUrl, path).Ok? && e in PathItemSpec(baseUrl, path).value
    ensures exists op :: Yields(baseUrl, path, op, e)
  {
    var ops := path.1.fields;
    var step := OperationStep(PathText(path.0), baseUrl);
    ConcatMapSound(ops, step, e);
    var j :| 0 <= j < |ops| && step(ops[j]).Ok? && e in step(ops[j]).value;
    OperationMember(PathText(path.0), baseUrl, ops[j], e);
    assert ops[j] in ops;
    assert Yields(baseUrl, path, ops[j], e);
  }

  /** An endpoint one operation yields is the parse of that marked operation. */
  lemma OperationMember(path: string, baseUrl: string, entry: (Key, Value), e: Endpoint)
    requires OperationStep(path, baseUrl)(entry).Ok? && e in OperationStep(path, baseUrl)(entry).value
    ensures Marked(entry.0, entry.1) && ParseEndpointSpec(path, entry.0.s, entry.1, baseUrl) == Some(e)
  {
    var r := OperationSpec(path, baseUrl, entry);
    assert |r.value| == 1 && e == r.value[0];
  }

  /**
   * Soundness of extraction: every endpoint comes from a method key among
   * get/post/put/delete/patch whose operation contains `x-ai-tool`; its path
   * is the base URL followed by the path key and its method the upper-cased key.
   */
  lemma ExtractSound(spec: Value, e: Endpoint)
    requires ExtractSpec(spec).Ok? && e in ExtractSpec(spec).value
    ensures spec.Obj? && PathsOf(spec).Obj? && BaseUrl(ServersOf(spec)).Ok?
    ensures exists path, op :: path in PathsOf(spec).fields && Yields(BaseUrl(ServersOf(spec)).value, path, op, e)
  {
    var baseUrl := BaseUrl(ServersOf(spec)).value;
    var paths := PathsOf(spec).fields;
    var step := PathStep(baseUrl);
    ConcatMapSound(paths, step, e);
    var i :| 0 <= i < |paths| && step(paths[i]).Ok? && e in step(paths[i]).value;
    PathItemSound(baseUrl, paths[i], e);
  }

  /** An endpoint a marked operation yields has the base URL and path key as path and an upper-cased method. */
  lemma YieldsShape(baseUrl: string, path: (Key, Value), op: (Key, Value), e: Endpoint)
    requires Yields(baseUrl, path, op, e)
    ensures e.path == baseUrl + PathText(path.0)
    ensures op.0.s in OPERATION_METHODS && e.verb == Upper(op.0.s)
  {
  }

  /**
   * Completeness of extraction: when extraction succeeds, every marked
   * operation that parses is in the result, whatever other operations did.
   */
  lemma {:induction false} ExtractComplete(spec: Value, path: (Key, Value), op: (Key, Value), e: Endpoint)
    requires ExtractSpec(spec).Ok?
    requires spec.Obj? && PathsOf(spec).Obj? && path in PathsOf(spec).fields
    requires BaseUrl(ServersOf(spec)).Ok? && Yields(BaseUrl(ServersOf(spec)).value, path, op, e)
    ensures e in ExtractSpec(spec).value
  {
    var baseUrl := BaseUrl(ServersOf(spec)).value;
    var paths := PathsOf(spec).fields;
    var i :| 0 <= i < |paths| && paths[i] == path;
    ConcatMapComplete(paths, PathStep(baseUrl), i);
    var ops := path.1.fields;
    var j :| 0 <= j < |ops| && ops[j] == op;
    ConcatMapComplete(ops, OperationStep(PathText(path.0), baseUrl), j);
  }

  /** A falsy `x-ai-tool` still marks the operation: it is extracted with no extension. */
  lemma FalsyMarkerStillExtracted(path: string, baseUrl: string, verb: string, op: Fields)
    requires verb in OPERATION_METHODS && KStr("x-ai-tool") in OrderedMap.Keys(op)
    requires !Truthy(Lookup(op, "x-ai-tool", Null))
    requires ParseEndpointSpec(path, verb, Obj(op), baseUrl).Some?
    ensures OperationSpec(path, baseUrl, (KStr(verb), Obj(op))) == Ok([ParseEndpointSpec(path, verb, Obj(op), baseUrl).value])
    ensures ParseEndpointSpec(path, verb, Obj(op), baseUrl).value.aiTool.None?
  {
  }

  /** Parameter records keep the declared order; `required` is false and `schema` `{}` unless given. */
  lemma ParamRecordsInOrder(items: seq<Value>, i: nat)
    requires ConcatMap(items, ParamStep).Ok? && i < |items|
    ensures |ConcatMap(items, ParamStep).value| == |items|
    ensures items[i].Obj? && ConcatMap(items, ParamStep).value[i] == ParamRecord(items[i]).value
  {
    ConcatMapSingles(items, ParamStep, i);
  }

  /* ---------------------------------------------------------------- */
  /* Conversion                                                       */
  /* ---------------------------------------------------------------- */

  /** The tool name: lower-cased verb, `_`, then the path with `/` made `_` and `_` stripped. */
  function ToolName(verb: string, path: string): string {
    Lower(verb) + "_" + Strip(ReplaceChar(path, '/', '_'), '_')
  }

  /** The path part of a name has no `/` and neither starts nor ends with `_`. */
  lemma PathPartShape(path: string)
    ensures var mid := Strip(ReplaceChar(path, '/', '_'), '_');
      && (forall j :: 0 <= j < |mid| ==> mid[j] != '/')
      && (|mid| > 0 ==> mid[0] != '_' && mid[|mid| - 1] != '_')
  {
    StripKeepsAbsent(ReplaceChar(path, '/', '_'), '_', '/');
  }

  /**
   * The name is the lower-cased verb and `_`, kept whole, followed by a path
   * part that has no `/` and neither starts nor ends with `_`.
   */
  lemma ToolNameShape(verb: string, path: string, name: string)
    requires name == ToolName(verb, path)
    ensures StartsWith(name, Lower(verb) + "_")
    ensures forall j :: |verb| + 1 <= j < |name| ==> name[j] != '/'
    ensures |name| > |verb| + 1 ==> name[|verb| + 1] != '_' && name[|name| - 1] != '_'
  {
    PathPartShape(path);
    JoinedShape(Lower(verb) + "_", Strip(ReplaceChar(path, '/', '_'), '_'), name);
  }

  lemma JoinedShape(head: string, mid: string, name: string)
    requires name == head + mid
    requires forall j :: 0 <= j < |mid| ==> mid[j] != '/'
    requires |mid| > 0 ==> mid[0] != '_' && mid[|mid| - 1] != '_'
    ensures StartsWith(name, head)
    ensures forall j :: |head| <= j < |name| ==> name[j] != '/'
    ensures |name| > |head| ==> name[|head|] != '_' && name[|name| - 1] != '_'
  {
    assert name[..|head|] == head;
  }

  /** Two different paths can give the same name: `/` and `_` both become `_`. */
  lemma ToolNamesCollide()
    ensures ToolName("GET", "/a/b") == ToolName("GET", "/a_b") == "get_a_b"
  {
    SlashesReplaced();
    UnderscoresStripped();
    LowerGet();
    ToolNameParts("GET", "/a/b", "get", "a_b");
    ToolNameParts("GET", "/a_b", "get", "a_b");
    JoinedLiteral();
  }

  lemma ToolNameParts(verb: string, path: string, lower: string, mid: string)
    requires Lower(verb) == lower && Strip(ReplaceChar(path, '/', '_'), '_') == mid
    ensures ToolName(verb, path) == lower + "_" + mid
  {
  }

  lemma JoinedLiteral()
    ensures "get" + "_" + "a_b" == "get_a_b"
  {
  }

  lemma SlashesReplaced()
    ensures ReplaceChar("/a/b", '/', '_') == "_a_b" && ReplaceChar("/a_b", '/', '_') == "_a_b"
  {
  }

  lemma UnderscoresStripped()
    ensures Strip("_a_b", '_') == "a_b"
  {
    var s: string := "_a_b";
    assert s[0] == '_' && s[1..] == "a_b";
    var t: string := "a_b";
    assert t[0] == 'a' && t[|t| - 1] == 'b';
    assert StripLeft(t, '_') == t;
    assert StripLeft(s, '_') == t;
    assert StripRight(t, '_') == t;
  }

  lemma LowerGet()
    ensures Lower("GET") == "get"
  {
    assert LowerChar('G') == 'g' && LowerChar('E') == 'e' && LowerChar('T') == 't';
  }

  /** `properties` and `required` after the loop over the declared parameters. */
  function ParamsSchema(params: seq<Param>): Py<(Fields, seq<Value>)>
    decreases |params|
  {
    if params == [] then Ok(([], []))
    else
      var acc :- ParamsSchema(params[..|params| - 1]);
      var p := params[|params| - 1];
      var k :- KeyOf(p.name);
      Ok((OrderedMap.Put(acc.0, k, p.schema), if Truthy(p.required) then acc.1 + [p.name] else acc.1))
  }

  /** One pass of the parameter loop. */
  lemma ParamsSchemaStep(params: seq<Param>, i: nat, props: Fields, required: seq<Value>)
    requires i < |params| && ParamsSchema(params[..i]) == Ok((props, required))
    ensures ParamsSchema(params[..i + 1]) ==
      if KeyOf(params[i].name).Err? then Err(KeyOf(params[i].name).error)
      else Ok((OrderedMap.Put(props, KeyOf(params[i].name).value, params[i].schema),
               if Truthy(params[i].required) then required + [params[i].name] else required))
  {
    assert params[..i + 1][..i] == params[..i];
    assert params[..i + 1][i] == params[i];
  }

  /** The names of the required parameters, in declaration order. */
  function RequiredNames(params: seq<Param>): seq<Value> {
    if params == [] then []
    else (if Truthy(params[0].required) then [params[0].name] else []) + RequiredNames(params[1..])
  }

  /** Every parameter name is hashable. */
  predicate HashableNames(params: seq<Param>) {
    forall i :: 0 <= i < |params| ==> KeyOf(params[i].name).Ok?
  }

  /** The schema the last parameter named `k` declares, if any parameter is named `k`. */
  function LastSchema(params: seq<Param>, k: Key): Option<Value>
    decreases |params|
  {
    if params == [] then None
    else if KeyOf(params[|params| - 1].name) == Ok(k) then Some(params[|params| - 1].schema)
    else LastSchema(params[..|params| - 1], k)
  }

  lemma SplitLast<T>(s: seq<T>)
    requires |s| > 0
    ensures s == s[..|s| - 1] + [s[|s| - 1]]
  {
  }

  lemma {:induction false} RequiredNamesAppend(a: seq<Param>, b: seq<Param>)
    ensures RequiredNames(a + b) == RequiredNames(a) + RequiredNames(b)
    decreases |a|
  {
    if a == [] {
      assert a + b == b;
    } else {
      var ab := a + b;
      var head := if Truthy(a[0].required) then [a[0].name] else [];
      assert ab != [] && ab[0] == a[0];
      assert ab[1..] == a[1..] + b;
      assert RequiredNames(ab) == head + RequiredNames(ab[1..]);
      assert RequiredNames(a) == head + RequiredNames(a[1..]);
      RequiredNamesAppend(a[1..], b);
    }
  }

  /** The parameter loop raises exactly when some parameter name is unhashable. */
  lemma {:induction false} ParamsSchemaOk(params: seq<Param>)
    ensures ParamsSchema(params).Ok? <==> HashableNames(params)
    decreases |params|
  {
    if params != [] {
      var n := |params| - 1;
      var init := params[..n];
      ParamsSchemaOk(init);
      assert ParamsSchema(params).Ok? <==> ParamsSchema(init).Ok? && KeyOf(params[n].name).Ok?;
      if HashableNames(params) {
        forall i | 0 <= i < n
          ensures KeyOf(init[i].name).Ok?
        {
          assert init[i] == params[i];
        }
        assert KeyOf(params[n].name).Ok?;
      }
      if HashableNames(init) && KeyOf(params[n].name).Ok? {
        forall i | 0 <= i < |params|
          ensures KeyOf(params[i].name).Ok?
        {
          if i < n {
            assert params[i] == init[i];
            assert KeyOf(init[i].name).Ok?;
          } else {
            assert i == n;
          }
        }
      }
    }
  }

  /** `required` lists the names of the required parameters in declaration order. */
  lemma {:induction false} ParamsSchemaRequired(params: seq<Param>)
    requires ParamsSchema(params).Ok?
    ensures ParamsSchema(params).value.1 == RequiredNames(params)
    decreases |params|
  {
    if params != [] {
      var n := |params| - 1;
      var init := params[..n];
      var last := params[n];
      ParamsSchemaRequired(init);
      SplitLast(params);
      RequiredNamesAppend(init, [last]);
      assert [last][1..] == [];
      assert RequiredNames([last]) == if Truthy(last.required) then [last.name] else [];
      assert RequiredNames(params) == RequiredNames(init) + RequiredNames([last]);
    }
  }

  /** Each name maps to the schema of the last parameter with that name. */
  lemma {:induction false} ParamsSchemaProperties(params: seq<Param>, k: Key)
    requires ParamsSchema(params).Ok?
    ensures OrderedMap.Get(ParamsSchema(params).value.0, k) == LastSchema(params, k)
    decreases |params|
  {
    if params != [] {
      ParamsSchemaProperties(params[..|params| - 1], k);
    }
  }

  /** Every parameter marked required names a key of `properties`. */
  lemma {:induction false} RequiredParamsAreProperties(params: seq<Param>, x: Value)
    requires ParamsSchema(params).Ok? && x in ParamsSchema(params).value.1
    ensures KeyOf(x).Ok? && KeyOf(x).value in OrderedMap.Keys(ParamsSchema(params).value.0)
    decreases |params|
  {
    var n := |params| - 1;
    var init := params[..n];
    var acc := ParamsSchema(init).value;
    var k := KeyOf(params[n].name).value;
    if x in acc.1 {
      RequiredParamsAreProperties(init, x);
    } else {
      assert x == params[n].name;
    }
  }

  /**
   * After `props.update(other)` with a dict `other`, a key of `other` has
   * `other`'s value and any other key is untouched.
   */
  lemma {:induction false} PutAllGet(props: Fields, other: Fields, k: Key)
    requires OrderedMap.Distinct(OrderedMap.Keys(other))
    ensures OrderedMap.Get(OrderedMap.PutAll(props, other), k) ==
      if k in OrderedMap.Keys(other) then OrderedMap.Get(other, k) else OrderedMap.Get(props, k)
    decreases |other|
  {
    if other != [] {
      var rest := other[1..];
      var next := OrderedMap.Put(props, other[0].0, other[0].1);
      OrderedMap.DistinctTail(other);
      PutAllGet(next, rest, k);
      assert OrderedMap.Keys(other) == [other[0].0] + OrderedMap.Keys(rest);
      if k == other[0].0 {
        assert OrderedMap.Get(next, k) == Some(other[0].1);
      } else {
        assert OrderedMap.Get(next, k) == OrderedMap.Get(props, k);
        assert OrderedMap.Get(other, k) == OrderedMap.Get(rest, k);
      }
    }
  }

  function PairStep(acc: Py<Fields>, element: Value): Py<Fields> {
    var props :- acc;
    var pair :- Iterate(element);
    if |pair| != 2 then Err(Raised("dictionary update sequence element has the wrong length; 2 is required"))
    else
      var k :- KeyOf(pair[0]);
      Ok(OrderedMap.Put(props, k, pair[1]))
  }

  function PutPairs(acc: Py<Fields>, elements: seq<Value>): Py<Fields>
    decreases |elements|
  {
    if elements == [] then acc else PutPairs(PairStep(acc, elements[0]), elements[1..])
  }

  /** `props.update(other)`: a dict is merged key by key, anything else is read as key/value pairs. */
  function Update(props: Fields, other: Value): Py<Fields> {
    if other.Obj? then Ok(OrderedMap.PutAll(props, other.fields))
    else
      var elements :- Iterate(other);
      PutPairs(Ok(props), elements)
  }

  /** Whether the body schema is merged: it is a non-empty dict whose `type` is `'object'`. */
  predicate MergesBody(body: Option<Fields>) {
    body.Some? && body.value != [] && OrderedMap.Get(body.value, KStr("type")) == Some(Str("object"))
  }

  /** The object body's properties merged over the parameters' and its `required` list appended. */
  function BodySchema(props: Fields, required: seq<Value>, body: Option<Fields>): Py<(Fields, seq<Value>)> {
    if MergesBody(body) then
      var merged :- Update(props, Lookup(body.value, "properties", EMPTY));
      var extra :- Iterate(Lookup(body.value, "required", Arr([])));
      Ok((merged, required + extra))
    else Ok((props, required))
  }

  /** The AI description when the extension is set, else the operation's own (or null). */
  function DescriptionOf(e: Endpoint): Value {
    match e.aiTool
    case Some(t) => Str(t.description)
    case None => if e.description.Some? then Str(e.description.value) else Null
  }

  /** `convert_to_ai_format`, as a function of the endpoint record. */
  function ConvertSpec(e: Endpoint): (r: Py<Tool>)
    ensures r.Ok? ==> r.value.name == ToolName(e.verb, e.path)
    ensures r.Ok? ==> r.value.url == e.path && r.value.verb == e.verb
    ensures r.Ok? ==> r.value.description == (if e.aiTool.Some? then Str(e.aiTool.value.description)
                                              else if e.description.Some? then Str(e.description.value)
                                              else Null)
    ensures !MergesBody(e.requestBody) ==> (r.Ok? <==> ParamsSchema(e.parameters).Ok?)
    ensures !MergesBody(e.requestBody) && r.Ok? ==>
      (r.value.properties, r.value.required) == ParamsSchema(e.parameters).value
  {
    var schema :- ParamsSchema(e.parameters);
    var merged :- BodySchema(schema.0, schema.1, e.requestBody);
    Ok(Tool(ToolName(e.verb, e.path), DescriptionOf(e), merged.0, merged.1, e.path, e.verb))
  }

  /**
   * With an object request body whose `properties` is a dict and `required` a
   * list, body properties overwrite same-named parameter schemas and the
   * body's `required` follows the parameters' unchanged, duplicates and all.
   */
  lemma ConvertMergesBody(e: Endpoint, k: Key)
    requires MergesBody(e.requestBody) && ParamsSchema(e.parameters).Ok?
    requires Lookup(e.requestBody.value, "properties", EMPTY).Obj?
    requires OrderedMap.Distinct(OrderedMap.Keys(Lookup(e.requestBody.value, "properties", EMPTY).fields))
    requires Lookup(e.requestBody.value, "required", Arr([])).Arr?
    ensures ConvertSpec(e).Ok?
    ensures var bodyProps := Lookup(e.requestBody.value, "properties", EMPTY).fields;
      OrderedMap.Get(ConvertSpec(e).value.properties, k) ==
        if k in OrderedMap.Keys(bodyProps) then OrderedMap.Get(bodyProps, k)
        else OrderedMap.Get(ParamsSchema(e.parameters).value.0, k)
    ensures ConvertSpec(e).value.required ==
      ParamsSchema(e.parameters).value.1 + Lookup(e.requestBody.value, "required", Arr([])).items
  {
    PutAllGet(ParamsSchema(e.parameters).value.0, Lookup(e.requestBody.value, "properties", EMPTY).fields, k);
  }

  /** The descriptor as the dictionary the registry stores. */
  function Encode(t: Tool): Value {
    Obj([
      (KStr("name"), Str(t.name)),
      (KStr("description"), t.description),
      (KStr("parameters"), Obj([
        (KStr("type"), Str("object")),
        (KStr("properties"), Obj(t.properties)),
        (KStr("required"), Arr(t.required))])),
      (KStr("endpoint"), Obj([
        (KStr("url"), Str(t.url)),
        (KStr("method"), Str(t.verb))]))])
  }

  /** Reading a stored descriptor back, the way callers index it. */
  function Decode(v: Value): Option<Tool> {
    if !v.Obj? then None
    else
      var name := Lookup(v.fields, "name", Null);
      var params := Lookup(v.fields, "parameters", Null);
      var endpoint := Lookup(v.fields, "endpoint", Null);
      if !name.Str? || !params.Obj? || !endpoint.Obj? then None
      else
        var props := Lookup(params.fields, "properties", Null);
        var required := Lookup(params.fields, "required", Null);
        var url := Lookup(endpoint.fields, "url", Null);
        var verb := Lookup(endpoint.fields, "method", Null);
        if props.Obj? && required.Arr? && url.Str? && verb.Str? then
          Some(Tool(name.s, Lookup(v.fields, "description", Null), props.fields, required.items, url.s, verb.s))
        else None
  }

  /** Every descriptor has `parameters.type == 'object'` and reads back as the tool it encodes. */
  lemma EncodeDecode(t: Tool)
    ensures Decode(Encode(t)) == Some(t)
    ensures Encode(t).Obj? && Lookup(Encode(t).fields, "parameters", Null).Obj?
    ensures Lookup(Lookup(Encode(t).fields, "parameters", Null).fields, "type", Null) == Str("object")
  {
    EncodedFields(t);
    EncodedParameters(t);
    EncodedEndpoint(t);
  }

  /** The top-level entries of a descriptor. */
  lemma EncodedFields(t: Tool)
    ensures var m := Encode(t).fields;
      && Lookup(m, "name", Null) == Str(t.name)
      && Lookup(m, "description", Null) == t.description
      && Lookup(m, "parameters", Null) == m[2].1
      && Lookup(m, "endpoint", Null) == m[3].1
  {
    var m := Encode(t).fields;
    OrderedMap.GetAt(m, KStr("name"), 0);
    OrderedMap.GetAt(m, KStr("description"), 1);
    OrderedMap.GetAt(m, KStr("parameters"), 2);
    OrderedMap.GetAt(m, KStr("endpoint"), 3);
  }

  /** The entries of a descriptor's `parameters`. */
  lemma EncodedParameters(t: Tool)
    ensures var params := Encode(t).fields[2].1;
      && params.Obj?
      && Lookup(params.fields, "type", Null) == Str("object")
      && Lookup(params.fields, "properties", Null) == Obj(t.properties)
      && Lookup(params.fields, "required", Null) == Arr(t.required)
  {
    var params := Encode(t).fields[2].1.fields;
    OrderedMap.GetAt(params, KStr("type"), 0);
    OrderedMap.GetAt(params, KStr("properties"), 1);
    OrderedMap.GetAt(params, KStr("required"), 2);
  }

  /** The entries of a descriptor's `endpoint`. */
  lemma EncodedEndpoint(t: Tool)
    ensures var endpoint := Encode(t).fields[3].1;
      && endpoint.Obj?
      && Lookup(endpoint.fields, "url", Null) == Str(t.url)
      && Lookup(endpoint.fields, "method", Null) == Str(t.verb)
  {
    var endpoint := Encode(t).fields[3].1.fields;
    OrderedMap.GetAt(endpoint, KStr("url"), 0);
    OrderedMap.GetAt(endpoint, KStr("method"), 1);
  }

  /* ---------------------------------------------------------------- */
  /* Loading                                                          */
  /* ---------------------------------------------------------------- */

  /** The last component of a path. */
  function FileName(path: string): (r: string)
    ensures '/' !in r
    ensures '/' !in path ==> r == path
  {
    var i := RFindChar(path, '/');
    path[i + 1..]
  }

  /** `Path(path).stem`: the file name without its last suffix. */
  function Stem(path: string): (r: string)
    ensures '/' !in r
    ensures StartsWith(FileName(path), r)
  {
    var name := FileName(path);
    var i := RFindChar(name, '.');
    if 0 < i < |name| - 1 then name[..i] else name
  }

  /** The id a document is stored under: `info.title`, else the file stem. */
  function SpecId(doc: Value, stem: string): (r: Py<Key>)
    ensures doc.Obj? && KStr("info") !in OrderedMap.Keys(doc.fields) ==> r == Ok(KStr(stem))
    ensures doc.Obj? && Lookup(doc.fields, "info", EMPTY).Obj? ==>
      var info := Lookup(doc.fields, "info", EMPTY).fields;
      (KStr("title") !in OrderedMap.Keys(info) ==> r == Ok(KStr(stem))) &&
      (Lookup(info, "title", Null).Str? ==> r == Ok(KStr(Lookup(info, "title", Null).s)))
    ensures !doc.Obj? ==> r.Err?
  {
    var info :- GetOr(doc, "info", EMPTY);
    var title :- GetOr(info, "title", Str(stem));
    KeyOf(title)
  }

  /** What `load_spec` reads from `specPath`: the id and the document, or the exception. */
  function ReadSpec(specPath: string, file: FileState): (r: Py<(Key, Value)>)
    ensures file.Missing? ==> r == Err(Raised("OpenAPI spec not found: " + specPath))
    ensures r.Ok? ==> file == Loaded(r.value.1) && SpecId(r.value.1, Stem(specPath)) == Ok(r.value.0)
    ensures file.Loaded? && SpecId(file.doc, Stem(specPath)).Ok? ==> r.Ok?
  {
    match file
    case Missing => Err(Raised("OpenAPI spec not found: " + specPath))
    case Unreadable(e) => Err(e)
    case Loaded(doc) =>
      var id :- SpecId(doc, Stem(specPath));
      Ok((id, doc))
  }

  /** A file's stem drops its directory and its last suffix. */
  lemma StemOfJsonFile()
    ensures Stem("d/api.json") == "api"
  {
    var name: string := "api.json";
    FileNameOfNested();
    RFindCharAt(name, '.', 3);
    assert name[..3] == "api";
  }

  lemma FileNameOfNested()
    ensures FileName("d/api.json") == "api.json"
  {
    var path: string := "d/api.json";
    assert path[1] == '/';
    assert forall j :: 1 < j < |path| ==> path[j] != '/';
    RFindCharAt(path, '/', 1);
    assert path[2..] == "api.json";
  }

  /** A name whose only dot is its first character is its own stem. */
  lemma StemOfDotFile()
    ensures Stem(".hidden") == ".hidden"
  {
    assert '/' !in ".hidden";
    assert ".hidden"[0] == '.' && '.' !in ".hidden"[1..];
    assert RFindChar(".hidden", '.') == 0;
  }

  /** `OpenAPIParser`: the loaded documents by id, and the operations on documents. */
  class Parser {
    var specs: Fields

    constructor ()
      ensures specs == []
    {
      specs := [];
    }

    /**
     * `load_spec`: a missing file raises `FileNotFoundError`; otherwise the
     * document is stored under its id, replacing an earlier one with that id.
     */
    method LoadSpec(specPath: string, fs: FileSystem) returns (r: Py<Value>)
      modifies this
      ensures r == (match ReadSpec(specPath, fs(specPath))
                    case Ok(loaded) => Ok(loaded.1)
                    case Err(e) => Err(e))
      ensures specs == (match ReadSpec(specPath, fs(specPath))
                        case Ok(loaded) => OrderedMap.Put(old(specs), loaded.0, loaded.1)
                        case Err(_) => old(specs))
    {
      var read := ReadSpec(specPath, fs(specPath));
      match read {
        case Err(e) =>
          r := Err(e);
        case Ok(loaded) =>
          specs := OrderedMap.Put(specs, loaded.0, loaded.1);
          r := Ok(loaded.1);
      }
    }

    /** `extract_ai_tools`: the loop over paths and their operations. */
    method ExtractAiTools(spec: Value) returns (r: Py<seq<Endpoint>>)
      ensures r == ExtractSpec(spec)
    {
      var pathsOr := GetOr(spec, "paths", EMPTY);
      if pathsOr.Err? {
        return Err(pathsOr.error);
      }
      var baseOr := BaseUrl(ServersOf(spec));
      if baseOr.Err? {
        return Err(baseOr.error);
      }
      var itemsOr := Items(pathsOr.value);
      if itemsOr.Err? {
        return Err(itemsOr.error);
      }
      var baseUrl, paths := baseOr.value, itemsOr.value;
      var aiTools: seq<Endpoint> := [];
      for i := 0 to |paths|
        invariant ConcatMap(paths[..i], PathStep(baseUrl)) == Ok(aiTools)
      {
        var found := ExtractPathItem(PathText(paths[i].0), paths[i].1, baseUrl);
        ConcatMapStep(paths, i, PathStep(baseUrl));
        if found.Err? {
          ConcatMapErrSticks(paths, i + 1, PathStep(baseUrl));
          return Err(found.error);
        }
        aiTools := aiTools + found.value;
      }
      assert paths[..|paths|] == paths;
      r := Ok(aiTools);
    }

    /** The inner loop of `extract_ai_tools`, over one path item's operations. */
    method ExtractPathItem(path: string, pathItem: Value, baseUrl: string) returns (r: Py<seq<Endpoint>>)
      ensures r == (match Items(pathItem)
                    case Ok(ops) => ConcatMap(ops, OperationStep(path, baseUrl))
                    case Err(e) => Err(e))
    {
      var opsOr := Items(pathItem);
      if opsOr.Err? {
        return Err(opsOr.error);
      }
      var ops := opsOr.value;
      var found: seq<Endpoint> := [];
      for j := 0 to |ops|
        invariant ConcatMap(ops[..j], OperationStep(path, baseUrl)) == Ok(found)
      {
        ConcatMapStep(ops, j, OperationStep(path, baseUrl));
        var more := ExtractOperation(path, baseUrl, ops[j]);
        if more.Err? {
          ConcatMapErrSticks(ops, j + 1, OperationStep(path, baseUrl));
          return Err(more.error);
        }
        found := found + more.value;
      }
      assert ops[..|ops|] == ops;
      r := Ok(found);
    }

    /** One pass of the inner loop: the method-key test, the marker test, and the parse. */
    method ExtractOperation(path: string, baseUrl: string, entry: (Key, Value)) returns (r: Py<seq<Endpoint>>)
      ensures r == OperationSpec(path, baseUrl, entry)
    {
      var (verb, operation) := entry;
      if !(verb.KStr? && verb.s in OPERATION_METHODS) {
        return Ok([]);
      }
      var marked := In("x-ai-tool", operation);
      if marked.Err? {
        return Err(marked.error);
      }
      if !marked.value {
        return Ok([]);
      }
      var endpoint := ParseEndpoint(path, verb.s, operation, baseUrl);
      r := if endpoint.Some? then Ok([endpoint.value]) else Ok([]);
    }

    /** `_parse_endpoint`, with its loop over the declared parameters. */
    method ParseEndpoint(path: string, verb: string, operation: Value, baseUrl: string)
      returns (r: Option<Endpoint>)
      ensures r == ParseEndpointSpec(path, verb, operation, baseUrl)
    {
      var fieldsOr := Items(operation);
      if fieldsOr.Err? {
        return None;
      }
      var itemsOr := Iterate(Lookup(fieldsOr.value, "parameters", Arr([])));
      if itemsOr.Err? {
        return None;
      }
      var items := itemsOr.value;
      var parameters: seq<Param> := [];
      for i := 0 to |items|
        invariant ConcatMap(items[..i], ParamStep) == Ok(parameters)
      {
        ConcatMapStep(items, i, ParamStep);
        var param := ParamRecord(items[i]);
        if param.Err? {
          ConcatMapErrSticks(items, i + 1, ParamStep);
          return None;
        }
        parameters := parameters + [param.value];
      }
      assert items[..|items|] == items;
      var built := BuildEndpoint(path, verb, fieldsOr.value, baseUrl, parameters);
      r := if built.Ok? then Some(built.value) else None;
    }

    /** `convert_to_ai_format`, with its loop over the declared parameters. */
    method ConvertToAiFormat(endpoint: Endpoint) returns (r: Py<Tool>)
      ensures r == ConvertSpec(endpoint)
    {
      var params := endpoint.parameters;
      var properties: Fields := [];
      var required: seq<Value> := [];
      for i := 0 to |params|
        invariant ParamsSchema(params[..i]) == Ok((properties, required))
      {
        ParamsSchemaStep(params, i, properties, required);
        var key := KeyOf(params[i].name);
        if key.Err? {
          ParamsSchemaErrSticks(params, i + 1);
          return Err(key.error);
        }
        properties := OrderedMap.Put(properties, key.value, params[i].schema);
        if Truthy(params[i].required) {
          required := required + [params[i].name];
        }
      }
      assert params[..|params|] == params;
      var merged := BodySchema(properties, required, endpoint.requestBody);
      if merged.Err? {
        return Err(merged.error);
      }
      r := Ok(Tool(ToolName(endpoint.verb, endpoint.path), DescriptionOf(endpoint),
                   merged.value.0, merged.value.1, endpoint.path, endpoint.verb));
    }
  }

  /** Once the parameter loop has raised, the remaining parameters change nothing. */
  lemma {:induction false} ParamsSchemaErrSticks(params: seq<Param>, i: nat)
    requires i <= |params| && ParamsSchema(params[..i]).Err?
    ensures ParamsSchema(params) == ParamsSchema(params[..i])
    decreases |params| - i
  {
    if i < |params| {
      var q := params[..i + 1];
      assert q[..|q| - 1] == params[..i];
      assert ParamsSchema(q) == ParamsSchema(params[..i]);
      ParamsSchemaErrSticks(params, i + 1);
    } else {
      assert params[..i] == params;
    }
  }
}
