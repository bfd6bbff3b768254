/**
 * The tools service: the in-memory registry of tool descriptors, and the
 * three handlers over it: registering a descriptor, listing the registry,
 * and executing a tool by turning its arguments into an HTTP request.
 */
module ToolsApi {
  import opened Wrappers
  import opened Strings
  import opened Values
  import opened Http
  import OrderedMap
  import opened PathTemplates

  /* ---------------------------------------------------------------- */
  /* Registering a descriptor                                         */
  /* ---------------------------------------------------------------- */

  /** `not tool_data or 'name' not in tool_data`; `in` raises on a scalar. */
  function NameMissing(data: Value): Py<bool> {
    if !Truthy(data) then Ok(true)
    else
      var has :- In("name", data);
      Ok(!has)
  }

  /** The `201` reply for a registered descriptor. */
  function Registered(name: Value, data: Value): Reply {
    Json(201, Obj([
      (KStr("message"), Str("Tool " + PyStr(name) + " registered successfully")),
      (KStr("tool"), data)]))
  }

  /** `register_tool`, as a function of the registry: the reply and the registry afterwards. */
  function Register(tools: Fields, data: Value): (Reply, Fields) {
    match NameMissing(data)
    case Err(e) => (Unhandled(e), tools)
    case Ok(missing) =>
      if missing then (Json(400, ErrorBody("Missing tool name")), tools)
      else
        match Index(data, "name")
        case Err(e) => (Unhandled(e), tools)
        case Ok(name) =>
          match KeyOf(name)
          case Err(e) => (Unhandled(e), tools)
          case Ok(k) => (Registered(name, data), OrderedMap.Put(tools, k, data))
  }

  /** A falsy body, or a dict without `name`, is refused and the registry is left alone. */
  lemma RegisterRejects(tools: Fields, data: Value)
    requires !Truthy(data) || (data.Obj? && KStr("name") !in OrderedMap.Keys(data.fields))
    ensures Register(tools, data) == (Json(400, ErrorBody("Missing tool name")), tools)
  {
  }

  /**
   * A dict with a hashable `name` is stored under that name, replacing any
   * descriptor of the same name, and every other entry is kept.
   */
  lemma RegisterStores(tools: Fields, data: Value)
    requires data.Obj? && KStr("name") in OrderedMap.Keys(data.fields)
    requires KeyOf(Lookup(data.fields, "name", Null)).Ok?
    ensures var name := Lookup(data.fields, "name", Null);
      var k := KeyOf(name).value;
      var (reply, after) := Register(tools, data);
      && reply == Registered(name, data)
      && OrderedMap.Get(after, k) == Some(data)
      && (forall j :: j != k ==> OrderedMap.Get(after, j) == OrderedMap.Get(tools, j))
  {
  }

  /**
   * Only a `201` changes the registry, only a dict can earn one, and it
   * stores the body under its own name; the registry's keys stay distinct.
   */
  lemma RegisterChangesOnlyOnSuccess(tools: Fields, data: Value)
    requires OrderedMap.Distinct(OrderedMap.Keys(tools))
    ensures var (reply, after) := Register(tools, data);
      && OrderedMap.Distinct(OrderedMap.Keys(after))
      && (reply.Json? && reply.status == 201 <==>
            data.Obj? && NameMissing(data) == Ok(false) && KeyOf(Lookup(data.fields, "name", Null)).Ok?)
      && (reply.Json? && reply.status == 201 ==>
            after == OrderedMap.Put(tools, KeyOf(Lookup(data.fields, "name", Null)).value, data))
      && (!(reply.Json? && reply.status == 201) ==> after == tools)
  {
    var (reply, after) := Register(tools, data);
    if data.Obj? && NameMissing(data) == Ok(false) && KeyOf(Lookup(data.fields, "name", Null)).Ok? {
      OrderedMap.PutKeepsDistinct(tools, KeyOf(Lookup(data.fields, "name", Null)).value, data);
    }
  }

  /* ---------------------------------------------------------------- */
  /* Listing the registry                                             */
  /* ---------------------------------------------------------------- */

  /** The summary `list_tools` gives of one entry; `.get` raises unless the descriptor is a dict. */
  function Summary(entry: (Key, Value)): Py<seq<Value>> {
    var description :- GetOr(entry.1, "description", Str(""));
    var fields := entry.1.fields;
    Ok([Obj([
      (KStr("name"), KeyValue(entry.0)),
      (KStr("description"), description),
      (KStr("parameters"), Lookup(fields, "parameters", EMPTY)),
      (KStr("endpoint"), Lookup(fields, "endpoint", EMPTY))])])
  }

  /** `list_tools`, as a function of the registry. */
  function Listing(tools: Fields): Reply {
    match ConcatMap(tools, Summary)
    case Ok(list) => Json(200, Obj([(KStr("tools"), Arr(list)), (KStr("count"), Int(|list|))]))
    case Err(e) => Unhandled(e)
  }

  lemma SummaryIsSingle(entry: (Key, Value))
    ensures Summary(entry).Ok? <==> entry.1.Obj?
    ensures Summary(entry).Ok? ==> |Summary(entry).value| == 1
  {
  }

  /**
   * The listing succeeds exactly when every stored descriptor is a dict; it
   * then has one summary per entry, in registry order, with the entry's name
   * and the descriptor's fields or their defaults, and `count` is their number.
   */
  lemma {:induction false} ListingSummarises(tools: Fields)
    ensures Listing(tools).Json? <==> forall j :: 0 <= j < |tools| ==> tools[j].1.Obj?
    ensures Listing(tools).Json? ==>
      var body := Listing(tools).body.fields;
      var list := body[0].1.items;
      && Listing(tools).status == 200
      && |list| == |tools|
      && body[1].1 == Int(|tools|)
      && forall i :: 0 <= i < |tools| ==> list[i] == Obj([
           (KStr("name"), KeyValue(tools[i].0)),
           (KStr("description"), Lookup(tools[i].1.fields, "description", Str(""))),
           (KStr("parameters"), Lookup(tools[i].1.fields, "parameters", EMPTY)),
           (KStr("endpoint"), Lookup(tools[i].1.fields, "endpoint", EMPTY))])
  {
    ConcatMapOk(tools, Summary);
    forall x | Summary(x).Ok?
      ensures |Summary(x).value| == 1
    {
      SummaryIsSingle(x);
    }
    forall j | 0 <= j < |tools|
      ensures Summary(tools[j]).Ok? <==> tools[j].1.Obj?
    {
      SummaryIsSingle(tools[j]);
    }
    if ConcatMap(tools, Summary).Ok? && tools != [] {
      ConcatMapSingles(tools, Summary, 0);
      forall i | 0 <= i < |tools|
        ensures ConcatMap(tools, Summary).value[i] == Summary(tools[i]).value[0]
      {
        ConcatMapSingles(tools, Summary, i);
      }
    }
  }

  /* ---------------------------------------------------------------- */
  /* Executing a tool                                                 */
  /* ---------------------------------------------------------------- */

  /** `not data or 'tool_name' not in data or 'parameters' not in data`. */
  function ArgsMissing(data: Value): Py<bool> {
    if !Truthy(data) then Ok(true)
    else
      match In("tool_name", data)
      case Err(e) => Err(e)
      case Ok(hasName) => Ok(!hasName || !In("parameters", data).value)
  }

  /** `data['tool_name']`, `data['parameters']` and `registered_tools.get(tool_name)`. */
  function Resolve(tools: Fields, data: Value): Py<(Value, Value, Option<Value>)> {
    var name :- Index(data, "tool_name");
    var parameters :- Index(data, "parameters");
    var k :- KeyOf(name);
    Ok((name, parameters, OrderedMap.Get(tools, k)))
  }

  /** The text a parameter named `k` fills in a URL template: `{k}`. */
  function Placeholder(k: Key): (p: string)
    ensures |p| == |PyStr(KeyValue(k))| + 2 && p[0] == '{' && p[|p| - 1] == '}'
    ensures p[1..|p| - 1] == PyStr(KeyValue(k))
  {
    var p := "{" + PyStr(KeyValue(k)) + "}";
    assert p[1..|p| - 1] == PyStr(KeyValue(k));
    p
  }

  /** `method in ['GET', 'DELETE']`: the methods whose other arguments go in the query string. */
  predicate QueryVerb(verb: Value) {
    verb == Str("GET") || verb == Str("DELETE")
  }

  /** A value `in` can search: dict keys, list items or a substring. */
  predicate Container(v: Value) {
    v.Obj? || v.Arr? || v.Str?
  }

  datatype Kind = PathParam | QueryParam | BodyParam

  /** Where the routing loop puts an argument named `k`. */
  function KindOf(url: Value, verb: Value, k: Key): Kind {
    if In(Placeholder(k), url) == Ok(true) then PathParam
    else if QueryVerb(verb) then QueryParam
    else BodyParam
  }

  /** The three dicts the routing loop fills. */
  datatype Buckets = Buckets(path: Fields, query: Fields, body: Fields)

  function Place(b: Buckets, k: Key, v: Value, kind: Kind): Buckets {
    match kind
    case PathParam => b.(path := OrderedMap.Put(b.path, k, v))
    case QueryParam => b.(query := OrderedMap.Put(b.query, k, v))
    case BodyParam => b.(body := OrderedMap.Put(b.body, k, v))
  }

  /** The routing loop over `parameters.items()`, written over the prefix seen so far. */
  function Classify(args: Fields, url: Value, verb: Value): Py<Buckets>
    decreases |args|
  {
    if args == [] then Ok(Buckets([], [], []))
    else
      var b :- Classify(args[..|args| - 1], url, verb);
      var (k, v) := args[|args| - 1];
      var isPath :- In(Placeholder(k), url);
      Ok(Place(b, k, v, if isPath then PathParam else if QueryVerb(verb) then QueryParam else BodyParam))
  }

  /** The routing loop raises exactly when there is an argument and the URL cannot be searched. */
  lemma {:induction false} ClassifyOk(args: Fields, url: Value, verb: Value)
    ensures Classify(args, url, verb).Ok? <==> args == [] || Container(url)
    ensures args != [] && !Container(url) ==>
      Classify(args, url, verb) == Err(TypeError("argument of type '" + TypeName(url) + "' is not iterable"))
    decreases |args|
  {
    if args != [] {
      ClassifyOk(args[..|args| - 1], url, verb);
    }
  }

  /** One of the three dicts. */
  function Bucket(b: Buckets, kind: Kind): Fields {
    match kind
    case PathParam => b.path
    case QueryParam => b.query
    case BodyParam => b.body
  }

  lemma PlaceBucket(b: Buckets, k: Key, v: Value, placed: Kind, kind: Kind)
    ensures Bucket(Place(b, k, v, placed), kind) ==
      if kind == placed then OrderedMap.Put(Bucket(b, kind), k, v) else Bucket(b, kind)
  {
  }

  lemma {:induction false} ClassifyBucket(args: Fields, url: Value, verb: Value, k: Key, kind: Kind)
    requires Classify(args, url, verb).Ok?
    ensures OrderedMap.Get(Bucket(Classify(args, url, verb).value, kind), k) ==
      if KindOf(url, verb, k) == kind then OrderedMap.Last(args, k) else None
    decreases |args|
  {
    if args != [] {
      var n := |args| - 1;
      var init := args[..n];
      ClassifyStep(args, url, verb);
      var b := Classify(init, url, verb).value;
      ClassifyBucket(init, url, verb, k, kind);
      PlaceBucket(b, args[n].0, args[n].1, KindOf(url, verb, args[n].0), kind);
    }
  }

  /** The routing loop over one more argument: that argument is placed where its placeholder test says. */
  lemma ClassifyAppend(args: Fields, k: Key, v: Value, url: Value, verb: Value, b: Buckets)
    requires Classify(args, url, verb) == Ok(b)
    ensures Classify(args + [(k, v)], url, verb) ==
      if In(Placeholder(k), url).Err? then Err(In(Placeholder(k), url).error)
      else Ok(Place(b, k, v, if In(Placeholder(k), url).value then PathParam else if QueryVerb(verb) then QueryParam else BodyParam))
  {
    var longer := args + [(k, v)];
    assert longer[..|longer| - 1] == args;
    assert longer[|longer| - 1] == (k, v);
  }

  /** The routing loop's step over the prefix of the arguments. */
  lemma ClassifyPrefix(args: Fields, i: nat, url: Value, verb: Value, b: Buckets)
    requires i < |args| && Classify(args[..i], url, verb) == Ok(b)
    ensures Classify(args[..i + 1], url, verb) ==
      if In(Placeholder(args[i].0), url).Err? then Err(In(Placeholder(args[i].0), url).error)
      else Ok(Place(b, args[i].0, args[i].1, if In(Placeholder(args[i].0), url).value then PathParam else if QueryVerb(verb) then QueryParam else BodyParam))
  {
    var longer := args[..i + 1];
    assert longer[..|longer| - 1] == args[..i];
    assert longer[|longer| - 1] == args[i];
  }

  /** One pass of the routing loop places the last argument where its kind says. */
  lemma ClassifyStep(args: Fields, url: Value, verb: Value)
    requires args != [] && Classify(args, url, verb).Ok?
    ensures var n := |args| - 1;
      && Classify(args[..n], url, verb).Ok?
      && Classify(args, url, verb).value ==
           Place(Classify(args[..n], url, verb).value, args[n].0, args[n].1, KindOf(url, verb, args[n].0))
  {
  }

  /**
   * Every argument lands in exactly one of the three dicts, the one its
   * placeholder and the method choose, with the last value given for its name.
   */
  lemma ClassifyPartition(args: Fields, url: Value, verb: Value, k: Key)
    requires Classify(args, url, verb).Ok?
    ensures var b := Classify(args, url, verb).value;
      && OrderedMap.Get(b.path, k) == (if KindOf(url, verb, k) == PathParam then OrderedMap.Last(args, k) else None)
      && OrderedMap.Get(b.query, k) == (if KindOf(url, verb, k) == QueryParam then OrderedMap.Last(args, k) else None)
      && OrderedMap.Get(b.body, k) == (if KindOf(url, verb, k) == BodyParam then OrderedMap.Last(args, k) else None)
  {
    ClassifyBucket(args, url, verb, k, PathParam);
    ClassifyBucket(args, url, verb, k, QueryParam);
    ClassifyBucket(args, url, verb, k, BodyParam);
  }

  /** `GET` and `DELETE` never fill the body; the other methods never fill the query string. */
  lemma {:induction false} ClassifyKeepsOneSide(args: Fields, url: Value, verb: Value)
    requires Classify(args, url, verb).Ok?
    ensures QueryVerb(verb) ==> Classify(args, url, verb).value.body == []
    ensures !QueryVerb(verb) ==> Classify(args, url, verb).value.query == []
    decreases |args|
  {
    if args != [] {
      ClassifyKeepsOneSide(args[..|args| - 1], url, verb);
    }
  }

  /** The substitution loop over the path arguments: each `{k}` becomes `str(v)`, unescaped. */
  function Substitute(url: Value, path: Fields): Py<Value>
    decreases |path|
  {
    if path == [] then Ok(url)
    else
      var u :- Substitute(url, path[..|path| - 1]);
      var (k, v) := path[|path| - 1];
      if u.Str? then Ok(Str(ReplaceAll(u.s, Placeholder(k), PyStr(v))))
      else Err(AttributeError("'" + TypeName(u) + "' object has no attribute 'replace'"))
  }

  /** A string URL stays a string; any other URL with a path argument has no `replace`. */
  lemma {:induction false} SubstituteOk(url: Value, path: Fields)
    ensures url.Str? ==> Substitute(url, path).Ok? && Substitute(url, path).value.Str?
    ensures !url.Str? && path != [] ==>
      Substitute(url, path) == Err(AttributeError("'" + TypeName(url) + "' object has no attribute 'replace'"))
    decreases |path|
  {
    if path != [] {
      SubstituteOk(url, path[..|path| - 1]);
    }
  }

  /**
   * With one path argument whose placeholder occurs once, the URL is the
   * template with that occurrence replaced by the argument's `str`.
   */
  lemma SubstituteOne(before: string, after: string, k: Key, v: Value)
    requires forall j :: 0 <= j ==> !OccursAt(before + Placeholder(k), Placeholder(k), j) || j >= |before|
    requires !Contains(after, Placeholder(k))
    ensures Substitute(Str(before + Placeholder(k) + after), [(k, v)]) == Ok(Str(before + PyStr(v) + after))
  {
    var p := Placeholder(k);
    ReplaceFirst(before, p, after, PyStr(v));
    ReplaceAbsent(after, p, PyStr(v));
    assert [(k, v)][..0] == [];
  }

  /** The text a path argument's placeholder holds: `str(k)`. */
  function KeyText(k: Key): string {
    PyStr(KeyValue(k))
  }

  /** The substitution loop on a template: each `{k}` segment filled with `str(v)`, in argument order. */
  function FillAll(t: seq<Segment>, path: Fields): seq<Segment>
    decreases |path|
  {
    if path == [] then t
    else
      var (k, v) := path[|path| - 1];
      Fill(FillAll(t, path[..|path| - 1]), KeyText(k), PyStr(v))
  }

  /** The `str` of the first path argument whose key's `str` is `name`, if any. */
  function FirstFill(path: Fields, name: string): (r: Option<string>)
    ensures r.Some? <==> exists j :: 0 <= j < |path| && KeyText(path[j].0) == name
    ensures r.Some? ==> exists j :: 0 <= j < |path| && KeyText(path[j].0) == name && r.value == PyStr(path[j].1) &&
                                    forall i :: 0 <= i < j ==> KeyText(path[i].0) != name
    decreases |path|
  {
    if path == [] then None
    else
      var n := |path| - 1;
      var prev := FirstFill(path[..n], name);
      assert forall j :: 0 <= j < n ==> path[..n][j] == path[j];
      if prev.Some? then prev
      else if KeyText(path[n].0) == name then Some(PyStr(path[n].1))
      else None
  }

  /**
   * After the loop each `{name}` segment of the template holds the `str` of
   * the first path argument named `name`; segments no argument names stay.
   */
  lemma {:induction false} FillAllAt(t: seq<Segment>, path: Fields)
    ensures |FillAll(t, path)| == |t|
    ensures forall i :: 0 <= i < |t| ==>
      FillAll(t, path)[i] ==
        if t[i].Hole? && FirstFill(path, t[i].name).Some? then Literal(FirstFill(path, t[i].name).value) else t[i]
    decreases |path|
  {
    if path != [] {
      FillAllAt(t, path[..|path| - 1]);
    }
  }

  /**
   * On a path template whose argument names and values carry no braces,
   * the substitution loop renders the template with every placeholder an
   * argument names filled in, and the result is again a template.
   */
  lemma {:induction false} SubstituteTemplate(t: seq<Segment>, path: Fields)
    requires Template(t)
    requires forall j :: 0 <= j < |path| ==> BraceFree(KeyText(path[j].0)) && BraceFree(PyStr(path[j].1))
    ensures Template(FillAll(t, path))
    ensures Substitute(Str(Render(t)), path) == Ok(Str(Render(FillAll(t, path))))
    decreases |path|
  {
    if path != [] {
      var n := |path| - 1;
      assert forall j :: 0 <= j < n ==> path[..n][j] == path[j];
      SubstituteTemplate(t, path[..n]);
      SubstituteFillStep(t, path);
    }
  }

  /** One round of the loop fills one placeholder of the template rendered so far. */
  lemma SubstituteFillStep(t: seq<Segment>, path: Fields)
    requires path != []
    requires var f := FillAll(t, path[..|path| - 1]);
      Template(f) && Substitute(Str(Render(t)), path[..|path| - 1]) == Ok(Str(Render(f)))
    requires BraceFree(KeyText(path[|path| - 1].0)) && BraceFree(PyStr(path[|path| - 1].1))
    ensures Template(FillAll(t, path))
    ensures Substitute(Str(Render(t)), path) == Ok(Str(Render(FillAll(t, path))))
  {
    var (k, v) := path[|path| - 1];
    var f := FillAll(t, path[..|path| - 1]);
    assert Placeholder(k) == Brace(KeyText(k));
    RenderFill(f, KeyText(k), PyStr(v));
    FillTemplate(f, KeyText(k), PyStr(v));
  }

  /** On such a template no placeholder of a path argument is left in the URL. */
  lemma NoPlaceholderLeft(t: seq<Segment>, path: Fields)
    requires Template(t)
    requires forall j :: 0 <= j < |path| ==> BraceFree(KeyText(path[j].0)) && BraceFree(PyStr(path[j].1))
    ensures Substitute(Str(Render(t)), path).Ok?
    ensures forall j :: 0 <= j < |path| ==> !Contains(Substitute(Str(Render(t)), path).value.s, Placeholder(path[j].0))
  {
    SubstituteTemplate(t, path);
    FillAllAt(t, path);
    var f := FillAll(t, path);
    forall j | 0 <= j < |path|
      ensures !Contains(Render(f), Placeholder(path[j].0))
    {
      var name := KeyText(path[j].0);
      assert FirstFill(path, name).Some?;
      assert Placeholder(path[j].0) == Brace(name);
      PlaceholderIn(f, name);
    }
  }

  /**
   * Outside a template the loop can leave a placeholder behind even when no
   * value holds one: the braces around `{x}` in `{{x}}` close up.
   */
  lemma SubstituteCanLeavePlaceholder()
    ensures Substitute(Str("{{x}}"), [(KStr("x"), Str("x"))]) == Ok(Str("{x}"))
    ensures Contains("{x}", Placeholder(KStr("x")))
  {
    var path := [(KStr("x"), Str("x"))];
    assert path[..0] == [];
    assert Substitute(Str("{{x}}"), path[..0]) == Ok(Str("{{x}}"));
    assert Placeholder(KStr("x")) == "{x}";
    assert PyStr(Str("x")) == "x";
    ReplaceCanLeavePattern();
  }

  /** The request to send, or the `400` text for a method the handler does not route. */
  datatype Plan = Send(request: Request) | Reject(message: string)

  /** The HTTP method a request is sent with. */
  function Method(r: Request): string {
    match r
    case Get(_, _) => "GET"
    case Post(_, _) => "POST"
    case Put(_, _) => "PUT"
    case Delete(_, _) => "DELETE"
  }

  /** The `if method == ...` chain: `requests` is handed `str(url)`. */
  function Route(verb: Value, url: Value, b: Buckets): (p: Plan)
    ensures p.Send? <==> verb in [Str("GET"), Str("POST"), Str("PUT"), Str("DELETE")]
    ensures p.Send? ==> Str(Method(p.request)) == verb && p.request.url == PyStr(url)
    ensures p.Send? && QueryVerb(verb) ==> p.request.query == b.query
    ensures p.Send? && !QueryVerb(verb) ==> p.request.json == b.body
    ensures p.Reject? ==> p.message == "Unsupported method: " + PyStr(verb)
  {
    if verb == Str("GET") then Send(Get(PyStr(url), b.query))
    else if verb == Str("POST") then Send(Post(PyStr(url), b.body))
    else if verb == Str("PUT") then Send(Put(PyStr(url), b.body))
    else if verb == Str("DELETE") then Send(Delete(PyStr(url), b.query))
    else Reject("Unsupported method: " + PyStr(verb))
  }

  /** The body of the `try`: read the endpoint, route the arguments and fill the URL. */
  function BuildPlan(tool: Value, parameters: Value): Py<Plan> {
    var endpoint :- Index(tool, "endpoint");
    var url :- Index(endpoint, "url");
    var verb :- Index(endpoint, "method");
    var args :- Items(parameters);
    var b :- Classify(args, url, verb);
    var target :- Substitute(url, b.path);
    Ok(Route(verb, target, b))
  }

  /** `{'success': response.ok, 'status_code': ..., 'data': ...}`; `.json()` may raise. */
  function Envelope(r: Response): Py<Value> {
    var data :- if StartsWith(r.contentType.GetOr(""), "application/json") then DecodeJson(r)
                else Ok(Str(r.text));
    Ok(Obj([
      (KStr("success"), Bool(ResponseOk(r.status))),
      (KStr("status_code"), Int(r.status)),
      (KStr("data"), data)]))
  }

  /** The reply once the request has gone out; every exception becomes a `500`. */
  function Deliver(o: Outcome): Reply {
    match o
    case Failed(m) => Json(500, ErrorBody(m))
    case Answered(r) =>
      match Envelope(r)
      case Ok(body) => Json(200, body)
      case Err(e) => Json(500, ErrorBody(Message(e)))
  }

  /** `execute_tool`: the reply, and the request it sent if it sent one. */
  function Execute(tools: Fields, data: Value, http: Transport): (Reply, Option<Request>) {
    match ArgsMissing(data)
    case Err(e) => (Unhandled(e), None)
    case Ok(missing) =>
      if missing then (Json(400, ErrorBody("Missing tool_name or parameters")), None)
      else
        match Resolve(tools, data)
        case Err(e) => (Unhandled(e), None)
        case Ok(resolved) =>
          var (name, parameters, found) := resolved;
          if found.None? || !Truthy(found.value) then
            (Json(404, ErrorBody("Tool " + PyStr(name) + " not found")), None)
          else
            match BuildPlan(found.value, parameters)
            case Err(e) => (Json(500, ErrorBody(Message(e))), None)
            case Ok(plan) =>
              match plan
              case Reject(m) => (Json(400, ErrorBody(m)), None)
              case Send(request) => (Deliver(http(request)), Some(request))
  }

  /** A falsy body, or a dict without `tool_name` or `parameters`, gets `400` and sends nothing. */
  lemma ExecuteRefusesIncompleteArgs(tools: Fields, data: Value, http: Transport)
    requires || !Truthy(data)
             || (data.Obj? && KStr("tool_name") !in OrderedMap.Keys(data.fields))
             || (data.Obj? && KStr("parameters") !in OrderedMap.Keys(data.fields))
    ensures Execute(tools, data, http) == (Json(400, ErrorBody("Missing tool_name or parameters")), None)
  {
  }

  /** A name that is not registered (or maps to a falsy descriptor) gets `404` and sends nothing. */
  lemma ExecuteUnknownTool(tools: Fields, data: Value, http: Transport)
    requires data.Obj?
    requires KStr("tool_name") in OrderedMap.Keys(data.fields) && KStr("parameters") in OrderedMap.Keys(data.fields)
    requires KeyOf(Lookup(data.fields, "tool_name", Null)).Ok?
    requires var found := OrderedMap.Get(tools, KeyOf(Lookup(data.fields, "tool_name", Null)).value);
      found.None? || !Truthy(found.value)
    ensures Execute(tools, data, http) ==
      (Json(404, ErrorBody("Tool " + PyStr(Lookup(data.fields, "tool_name", Null)) + " not found")), None)
  {
  }

  /**
   * A request goes out only for a registered, truthy descriptor, it is the
   * one that descriptor plans, and the reply is what becomes of its outcome.
   */
  lemma ExecuteSendsOnlyForRegisteredTools(tools: Fields, data: Value, http: Transport)
    ensures var (reply, sent) := Execute(tools, data, http);
      sent.Some? ==>
        && data.Obj?
        && KeyOf(Lookup(data.fields, "tool_name", Null)).Ok?
        && var found := OrderedMap.Get(tools, KeyOf(Lookup(data.fields, "tool_name", Null)).value);
           && found.Some? && Truthy(found.value)
           && BuildPlan(found.value, Lookup(data.fields, "parameters", Null)) == Ok(Send(sent.value))
           && reply == Deliver(http(sent.value))
  {
  }

  /** When no request is sent, the reply does not depend on the network at all. */
  lemma ExecuteWithoutRequest(tools: Fields, data: Value, http: Transport, other: Transport)
    requires Execute(tools, data, http).1.None?
    ensures Execute(tools, data, other) == Execute(tools, data, http)
  {
  }

  /**
   * What a planned request carries: the method named by the descriptor, the
   * URL with the path arguments filled in, and every other argument in the
   * query string (`GET`, `DELETE`) or in the JSON body (`POST`, `PUT`).
   */
  lemma SentArguments(tool: Value, parameters: Value, request: Request, k: Key)
    requires BuildPlan(tool, parameters) == Ok(Send(request))
    ensures Index(tool, "endpoint").Ok?
    ensures var endpoint := Index(tool, "endpoint").value;
      && Index(endpoint, "url").Ok? && Index(endpoint, "method").Ok? && parameters.Obj?
      && var url := Index(endpoint, "url").value;
         var verb := Index(endpoint, "method").value;
         var sent := if KindOf(url, verb, k) == PathParam then None else OrderedMap.Last(parameters.fields, k);
         && Str(Method(request)) == verb
         && Classify(parameters.fields, url, verb).Ok?
         && request.url == PyStr(Substitute(url, Classify(parameters.fields, url, verb).value.path).value)
         && ((request.Get? || request.Delete?) ==> OrderedMap.Get(request.query, k) == sent)
         && ((request.Post? || request.Put?) ==> OrderedMap.Get(request.json, k) == sent)
  {
    var endpoint := Index(tool, "endpoint").value;
    var url := Index(endpoint, "url").value;
    var verb := Index(endpoint, "method").value;
    ClassifyPartition(parameters.fields, url, verb, k);
    ClassifyKeepsOneSide(parameters.fields, url, verb);
  }

  /** A `PATCH` descriptor is extracted like any other but is refused here with `400`. */
  lemma PatchIsRefused(tool: Value, parameters: Value)
    requires BuildPlan(tool, parameters).Ok?
    requires Index(tool, "endpoint").Ok? && Index(Index(tool, "endpoint").value, "method") == Ok(Str("PATCH"))
    ensures BuildPlan(tool, parameters) == Ok(Reject("Unsupported method: " + "PATCH"))
  {
    var endpoint := Index(tool, "endpoint").value;
    var url := Index(endpoint, "url").value;
    var verb := Index(endpoint, "method").value;
    var b := Classify(Items(parameters).value, url, verb).value;
    var target := Substitute(url, b.path).value;
    assert BuildPlan(tool, parameters) == Ok(Route(verb, target, b));
    assert verb !in [Str("GET"), Str("POST"), Str("PUT"), Str("DELETE")];
    assert PyStr(verb) == "PATCH";
  }

  /**
   * `PUT /{id}` with `{id: 7, n: "x"}`: `id` is a path argument and `n`
   * goes in the JSON body, never the other way round.
   */
  lemma PutArgumentsExample()
    ensures Classify([(KStr("id"), Int(7)), (KStr("n"), Str("x"))], Str("/{id}"), Str("PUT")) ==
      Ok(Buckets([(KStr("id"), Int(7))], [], [(KStr("n"), Str("x"))]))
  {
    var url := Str("/{id}");
    var verb := Str("PUT");
    PlaceholderExample(url);
    var one := [(KStr("id"), Int(7))];
    var two := [(KStr("n"), Str("x"))];
    assert !QueryVerb(verb);
    assert [] + one == one;
    assert OrderedMap.Put([], KStr("id"), Int(7)) == one;
    ClassifyAppend([], KStr("id"), Int(7), url, verb, Buckets([], [], []));
    var first := Buckets(one, [], []);
    assert Classify(one, url, verb) == Ok(first);
    assert OrderedMap.Put([], KStr("n"), Str("x")) == two;
    ClassifyAppend(one, KStr("n"), Str("x"), url, verb, first);
    assert Classify(one + two, url, verb) == Ok(Buckets(one, [], two));
    assert one + two == [(KStr("id"), Int(7)), (KStr("n"), Str("x"))];
  }

  lemma PlaceholderExample(url: Value)
    requires url == Str("/{id}")
    ensures In(Placeholder(KStr("id")), url) == Ok(true)
    ensures In(Placeholder(KStr("n")), url) == Ok(false)
  {
    assert Placeholder(KStr("id")) == "{id}";
    assert Placeholder(KStr("n")) == "{n}";
    assert OccursAt("/{id}", "{id}", 1);
    var s := "/{id}";
    var p := "{n}";
    forall j
      ensures !OccursAt(s, p, j)
    {
      if j == 0 {
        assert s[0..3][0] != p[0];
      } else if j == 1 {
        assert s[1..4][1] != p[1];
      }
    }
    ContainsIff(s, p);
  }

  /** ... and the path argument's placeholder becomes `str(7)`: the request goes to `/7`. */
  lemma PutUrlExample()
    ensures Substitute(Str("/{id}"), [(KStr("id"), Int(7))]) == Ok(Str("/7"))
  {
    assert "/" + "{id}" + "" == "/{id}";
    assert "/" + PyStr(Int(7)) + "" == "/7";
    assert Placeholder(KStr("id")) == "{id}";
    forall j | 0 <= j
      ensures !OccursAt("/" + "{id}", "{id}", j) || j >= 1
    {
    }
    SubstituteOne("/", "", KStr("id"), Int(7));
  }

  /**
   * An error status from the wrapped API is relayed, not raised: the reply
   * is `200` with `success` false, the status copied and the JSON body as sent.
   */
  lemma ErrorStatusIsRelayed(r: Response)
    requires 400 <= r.status < 600
    requires r.contentType.Some? && StartsWith(r.contentType.value, "application/json")
    requires r.body.Parsed?
    ensures Deliver(Answered(r)) == Json(200, Obj([
      (KStr("success"), Bool(false)),
      (KStr("status_code"), Int(r.status)),
      (KStr("data"), r.body.doc)]))
  {
  }

  /**
   * `success` is `response.ok`: false for 4xx and 5xx only, so a 3xx or a
   * code past 599 counts as success; a body that is not JSON is passed as text.
   */
  lemma EnvelopeSuccess(r: Response)
    requires !StartsWith(r.contentType.GetOr(""), "application/json")
    ensures Deliver(Answered(r)) == Json(200, Obj([
      (KStr("success"), Bool(r.status < 400 || r.status >= 600)),
      (KStr("status_code"), Int(r.status)),
      (KStr("data"), Str(r.text))]))
  {
  }

  /** The routing loop over `parameters.items()`. */
  method ClassifyArgs(args: Fields, url: Value, verb: Value) returns (r: Py<Buckets>)
    ensures r == Classify(args, url, verb)
  {
    ClassifyOk(args, url, verb);
    if args != [] && !Container(url) {
      return Err(TypeError("argument of type '" + TypeName(url) + "' is not iterable"));
    }
    var buckets := Buckets([], [], []);
    for i := 0 to |args|
      invariant Classify(args[..i], url, verb) == Ok(buckets)
    {
      ClassifyPrefix(args, i, url, verb, buckets);
      var k, v := args[i].0, args[i].1;
      var isPath := In(Placeholder(k), url);
      assert isPath.Ok?;
      var kind := if isPath.value then PathParam
                  else if QueryVerb(verb) then QueryParam
                  else BodyParam;
      buckets := Place(buckets, k, v, kind);
    }
    assert args[..|args|] == args;
    r := Ok(buckets);
  }

  /** The substitution loop over the path arguments. */
  method SubstitutePath(url: Value, pathArgs: Fields) returns (r: Py<Value>)
    ensures r == Substitute(url, pathArgs)
  {
    SubstituteOk(url, pathArgs);
    if pathArgs != [] && !url.Str? {
      return Err(AttributeError("'" + TypeName(url) + "' object has no attribute 'replace'"));
    }
    var target := url;
    for i := 0 to |pathArgs|
      invariant Substitute(url, pathArgs[..i]) == Ok(target)
    {
      assert pathArgs[..i + 1][..i] == pathArgs[..i];
      var (k, v) := pathArgs[i];
      target := Str(ReplaceAll(target.s, Placeholder(k), PyStr(v)));
    }
    assert pathArgs[..|pathArgs|] == pathArgs;
    r := Ok(target);
  }

  /** The body of the `try`, up to the request it sends. */
  method PlanRequest(tool: Value, parameters: Value) returns (r: Py<Plan>)
    ensures r == BuildPlan(tool, parameters)
  {
    var endpoint := Index(tool, "endpoint");
    if endpoint.Err? {
      return Err(endpoint.error);
    }
    var url := Index(endpoint.value, "url");
    if url.Err? {
      return Err(url.error);
    }
    var verb := Index(endpoint.value, "method");
    if verb.Err? {
      return Err(verb.error);
    }
    var args := Items(parameters);
    if args.Err? {
      return Err(args.error);
    }
    var buckets := ClassifyArgs(args.value, url.value, verb.value);
    if buckets.Err? {
      return Err(buckets.error);
    }
    var target := SubstitutePath(url.value, buckets.value.path);
    if target.Err? {
      return Err(target.error);
    }
    r := Ok(Route(verb.value, target.value, buckets.value));
  }

  /** `registered_tools`, with the three handlers over it. */
  class Registry {
    var tools: Fields

    constructor ()
      ensures tools == []
    {
      tools := [];
    }

    /** `register_tool`: upsert under the body's name, or refuse. */
    method RegisterTool(data: Value) returns (reply: Reply)
      modifies this
      ensures (reply, tools) == Register(old(tools), data)
    {
      var missing := NameMissing(data);
      if missing.Err? {
        return Unhandled(missing.error);
      }
      if missing.value {
        return Json(400, ErrorBody("Missing tool name"));
      }
      var name := Index(data, "name");
      if name.Err? {
        return Unhandled(name.error);
      }
      var k := KeyOf(name.value);
      if k.Err? {
        return Unhandled(k.error);
      }
      tools := OrderedMap.Put(tools, k.value, data);
      reply := Registered(name.value, data);
    }

    /** `list_tools`: the loop over the registry. */
    method ListTools() returns (reply: Reply)
      ensures reply == Listing(tools)
    {
      var list: seq<Value> := [];
      for i := 0 to |tools|
        invariant ConcatMap(tools[..i], Summary) == Ok(list)
      {
        ConcatMapStep(tools, i, Summary);
        var entry := Summary(tools[i]);
        if entry.Err? {
          ConcatMapErrSticks(tools, i + 1, Summary);
          return Unhandled(entry.error);
        }
        list := list + entry.value;
      }
      assert tools[..|tools|] == tools;
      reply := Json(200, Obj([(KStr("tools"), Arr(list)), (KStr("count"), Int(|list|))]));
    }

    /** `execute_tool`: resolve the descriptor, plan the request, send it and wrap the outcome. */
    method ExecuteTool(data: Value, http: Transport) returns (reply: Reply, sent: Option<Request>)
      ensures (reply, sent) == Execute(tools, data, http)
    {
      var missing := ArgsMissing(data);
      if missing.Err? {
        return Unhandled(missing.error), None;
      }
      if missing.value {
        return Json(400, ErrorBody("Missing tool_name or parameters")), None;
      }
      var resolved := Resolve(tools, data);
      if resolved.Err? {
        return Unhandled(resolved.error), None;
      }
      var (name, parameters, found) := resolved.value;
      if found.None? || !Truthy(found.value) {
        return Json(404, ErrorBody("Tool " + PyStr(name) + " not found")), None;
      }
      var plan := PlanRequest(found.value, parameters);
      if plan.Err? {
        return Json(500, ErrorBody(Message(plan.error))), None;
      }
      match plan.value {
        case Reject(m) =>
          reply, sent := Json(400, ErrorBody(m)), None;
        case Send(request) =>
          reply, sent := Deliver(http(request)), Some(request);
      }
    }
  }
}
