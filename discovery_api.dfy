/**
 * The discovery service: registering every tool of an OpenAPI document,
 * the merged view of document-derived and registered tools, the list of
 * loaded documents, and the scan of a directory for documents.
 */
module DiscoveryApi {
  import opened Wrappers
  import opened Strings
  import opened Values
  import opened Http
  import OrderedMap
  import P = OpenApiParser
  import T = ToolsApi

  /** `{'error': str(e)}` with status `500`. */
  function Failure(e: PyError): Reply {
    Json(500, ErrorBody(Message(e)))
  }

  /** `spec.get('info', {}).get('title', 'Unknown')`. */
  function SpecTitle(spec: Value): Py<Value> {
    var info :- GetOr(spec, "info", EMPTY);
    GetOr(info, "title", Str("Unknown"))
  }

  /* ---------------------------------------------------------------- */
  /* Registering a document's tools                                   */
  /* ---------------------------------------------------------------- */

  /** `data.get('spec_path') or data.get('spec_url')`. */
  function SpecSource(data: Value): (r: Py<Value>)
    ensures r.Ok? <==> data.Obj?
  {
    var path :- GetOr(data, "spec_path", Null);
    if Truthy(path) then Ok(path) else GetOr(data, "spec_url", Null)
  }

  /** The request that fetches a document: `requests.get` is handed `str(source)`. */
  function FetchRequest(source: Value): Request {
    Get(PyStr(source), [])
  }

  /** `requests.get(source)`, `raise_for_status()` and `.json()`. */
  function Fetch(source: Value, http: Transport): Py<Value> {
    match http(FetchRequest(source))
    case Failed(m) => Err(Raised(m))
    case Answered(r) =>
      match RaiseForStatus(r, PyStr(source))
      case Some(e) => Err(e)
      case None => DecodeJson(r)
  }

  /** `parser.load_spec(source)`: the document and the loaded documents afterwards. */
  function LoadFromFile(specs: Fields, source: Value, fs: P.FileSystem): (Py<Value>, Fields) {
    if !source.Str? then
      (Err(TypeError("expected str, bytes or os.PathLike object, not " + TypeName(source))), specs)
    else
      match P.ReadSpec(source.s, fs(source.s))
      case Err(e) => (Err(e), specs)
      case Ok(loaded) => (Ok(loaded.1), OrderedMap.Put(specs, loaded.0, loaded.1))
  }

  /** The registry state of the conversion loop: registry, counter, and the exception that stopped it. */
  datatype Progress = Progress(tools: Fields, count: nat, error: Option<PyError>)

  /** The loop converting and upserting every extracted endpoint, over the prefix seen so far. */
  function RegisterEach(tools: Fields, endpoints: seq<P.Endpoint>): Progress
    decreases |endpoints|
  {
    if endpoints == [] then Progress(tools, 0, None)
    else
      var p := RegisterEach(tools, endpoints[..|endpoints| - 1]);
      if p.error.Some? then p
      else
        match P.ConvertSpec(endpoints[|endpoints| - 1])
        case Err(e) => p.(error := Some(e))
        case Ok(t) => Progress(OrderedMap.Put(p.tools, KStr(t.name), P.Encode(t)), p.count + 1, None)
  }

  function ConvertStep(e: P.Endpoint): Py<seq<P.Tool>> {
    var t :- P.ConvertSpec(e);
    Ok([t])
  }

  /** The registry entries a list of descriptors makes: each under its own name. */
  function Entries(tools: seq<P.Tool>): Fields
    decreases |tools|
  {
    if tools == [] then []
    else Entries(tools[..|tools| - 1]) + [(KStr(tools[|tools| - 1].name), P.Encode(tools[|tools| - 1]))]
  }

  /**
   * The loop finishes exactly when every endpoint converts; then it has
   * counted every endpoint and upserted every descriptor in order, so a
   * later descriptor with the same name replaces an earlier one.
   */
  lemma {:induction false} RegisterEachAll(tools: Fields, endpoints: seq<P.Endpoint>)
    ensures RegisterEach(tools, endpoints).error.None? <==> ConcatMap(endpoints, ConvertStep).Ok?
    ensures RegisterEach(tools, endpoints).error.None? ==>
      && RegisterEach(tools, endpoints).count == |endpoints|
      && RegisterEach(tools, endpoints).tools == OrderedMap.PutAll(tools, Entries(ConcatMap(endpoints, ConvertStep).value))
    decreases |endpoints|
  {
    if endpoints != [] {
      var n := |endpoints| - 1;
      var init := endpoints[..n];
      RegisterEachAll(tools, init);
      var p := RegisterEach(tools, init);
      if p.error.None? {
        var ts := ConcatMap(init, ConvertStep).value;
        match P.ConvertSpec(endpoints[n]) {
          case Err(e) =>
            assert ConvertStep(endpoints[n]).Err?;
          case Ok(t) =>
            assert ConvertStep(endpoints[n]) == Ok([t]);
            assert ConcatMap(endpoints, ConvertStep) == Ok(ts + [t]);
            assert (ts + [t])[..|ts + [t]| - 1] == ts;
            assert Entries(ts + [t]) == Entries(ts) + [(KStr(t.name), P.Encode(t))];
            OrderedMap.PutAllAppend(tools, Entries(ts), KStr(t.name), P.Encode(t));
        }
      }
    }
  }

  /** After every endpoint converts, each name holds the last descriptor made under it. */
  lemma RegisteredUnderName(tools: Fields, endpoints: seq<P.Endpoint>, k: Key)
    requires ConcatMap(endpoints, ConvertStep).Ok?
    ensures var made := Entries(ConcatMap(endpoints, ConvertStep).value);
      OrderedMap.Get(RegisterEach(tools, endpoints).tools, k) ==
        if OrderedMap.Last(made, k).Some? then OrderedMap.Last(made, k) else OrderedMap.Get(tools, k)
  {
    RegisterEachAll(tools, endpoints);
    OrderedMap.PutAllLast(tools, Entries(ConcatMap(endpoints, ConvertStep).value), k);
  }

  /** What `register_spec` leaves behind: the reply, the loaded documents and the registry. */
  datatype Registration = Registration(reply: Reply, specs: Fields, tools: Fields)

  /** The `200` summary of a processed document. */
  function Processed(title: Value, discovered: nat, registered: nat): Reply {
    Json(200, Obj([
      (KStr("message"), Str("OpenAPI spec processed successfully")),
      (KStr("spec_title"), title),
      (KStr("tools_discovered"), Int(discovered)),
      (KStr("tools_registered"), Int(registered))]))
  }

  /** Once the document is in hand: extract, convert and register, then summarise. */
  function RegisterTools(specs: Fields, tools: Fields, spec: Value): Registration {
    match P.ExtractSpec(spec)
    case Err(e) => Registration(Failure(e), specs, tools)
    case Ok(endpoints) =>
      var p := RegisterEach(tools, endpoints);
      if p.error.Some? then Registration(Failure(p.error.value), specs, p.tools)
      else
        match SpecTitle(spec)
        case Err(e) => Registration(Failure(e), specs, p.tools)
        case Ok(title) => Registration(Processed(title, |endpoints|, p.count), specs, p.tools)
  }

  /** `register_spec`, as a function of the loaded documents, the registry, the files and the network. */
  function RegisterSpec(specs: Fields, tools: Fields, data: Value, fs: P.FileSystem, http: Transport): Registration {
    if !Truthy(data) then Registration(Json(400, ErrorBody("No data provided")), specs, tools)
    else
      match SpecSource(data)
      case Err(e) => Registration(Unhandled(e), specs, tools)
      case Ok(source) =>
        if !Truthy(source) then Registration(Json(400, ErrorBody("Missing spec_path or spec_url")), specs, tools)
        else
          var (loaded, after) := Obtain(specs, data, source, fs, http);
          match loaded
          case Err(e) => Registration(Failure(e), after, tools)
          case Ok(spec) => RegisterTools(after, tools, spec)
  }

  /** The document and the loaded documents afterwards: fetched when `spec_url` is set, else read from disk. */
  function Obtain(specs: Fields, data: Value, source: Value, fs: P.FileSystem, http: Transport): (Py<Value>, Fields)
    requires data.Obj?
  {
    if Truthy(Lookup(data.fields, "spec_url", Null)) then (Fetch(source, http), specs)
    else LoadFromFile(specs, source, fs)
  }

  /** No body, or one naming no source, is refused with `400` and changes nothing. */
  lemma RegisterSpecRefuses(specs: Fields, tools: Fields, data: Value, fs: P.FileSystem, http: Transport)
    requires !Truthy(data) || (data.Obj? && !Truthy(Lookup(data.fields, "spec_path", Null))
                                        && !Truthy(Lookup(data.fields, "spec_url", Null)))
    ensures var r := RegisterSpec(specs, tools, data, fs, http);
      && r.specs == specs && r.tools == tools
      && r.reply == Json(400, ErrorBody(if !Truthy(data) then "No data provided" else "Missing spec_path or spec_url"))
  {
  }

  /**
   * With both `spec_path` and `spec_url` set, the document is fetched over
   * HTTP, but from the `spec_path` value; the loaded documents are untouched.
   */
  lemma BothSourcesFetchPath(specs: Fields, data: Value, fs: P.FileSystem, http: Transport)
    requires data.Obj? && Truthy(Lookup(data.fields, "spec_path", Null)) && Truthy(Lookup(data.fields, "spec_url", Null))
    ensures SpecSource(data) == Ok(Lookup(data.fields, "spec_path", Null))
    ensures Obtain(specs, data, SpecSource(data).value, fs, http) == (Fetch(Lookup(data.fields, "spec_path", Null), http), specs)
  {
  }

  /** Without `spec_url`, the document is read from disk and nothing goes over the network. */
  lemma PathSourceReadsFile(specs: Fields, tools: Fields, data: Value, fs: P.FileSystem, http: Transport, other: Transport)
    requires data.Obj? && !Truthy(Lookup(data.fields, "spec_url", Null))
    ensures SpecSource(data).Ok?
    ensures Obtain(specs, data, SpecSource(data).value, fs, http) == LoadFromFile(specs, SpecSource(data).value, fs)
    ensures RegisterSpec(specs, tools, data, fs, http) == RegisterSpec(specs, tools, data, fs, other)
  {
  }

  /**
   * A `200` reply means every extracted endpoint was converted and registered:
   * `tools_registered` equals `tools_discovered`, and the registry is the old
   * one with every descriptor upserted under its name, in order.
   */
  lemma ProcessedCountsAll(specs: Fields, tools: Fields, spec: Value)
    requires RegisterTools(specs, tools, spec).reply.Json? && RegisterTools(specs, tools, spec).reply.status == 200
    ensures P.ExtractSpec(spec).Ok?
    ensures var endpoints := P.ExtractSpec(spec).value;
      && ConcatMap(endpoints, ConvertStep).Ok?
      && RegisterTools(specs, tools, spec).reply.body.fields[2].1 == Int(|endpoints|)
      && RegisterTools(specs, tools, spec).reply.body.fields[3].1 == Int(|endpoints|)
      && RegisterTools(specs, tools, spec).tools == OrderedMap.PutAll(tools, Entries(ConcatMap(endpoints, ConvertStep).value))
  {
    RegisterEachAll(tools, P.ExtractSpec(spec).value);
  }

  /* ---------------------------------------------------------------- */
  /* The merged tool view                                             */
  /* ---------------------------------------------------------------- */

  /** `tool_info` for a document-derived descriptor: the descriptor, tagged with the document's id. */
  function Tagged(id: Key, t: P.Tool): Value {
    Obj(OrderedMap.Put(P.Encode(t).fields, KStr("spec_id"), KeyValue(id)))
  }

  function TagStep(id: Key): P.Endpoint -> Py<seq<Value>> {
    e => match P.ConvertSpec(e)
         case Ok(t) => Ok([Tagged(id, t)])
         case Err(err) => Err(err)
  }

  /** The inner loop of `discover_tools`: every tool of one loaded document. */
  function SpecTools(entry: (Key, Value)): Py<seq<Value>> {
    var endpoints :- P.ExtractSpec(entry.1);
    ConcatMap(endpoints, TagStep(entry.0))
  }

  /** `t['name'] == name`; a descriptor that cannot be indexed by `'name'` raises. */
  function Named(t: Value, name: Key): Py<bool> {
    var v :- Index(t, "name");
    Ok(KeyOf(v) == Ok(name))
  }

  /** `any(t['name'] == name for t in ts)`, which stops at the first match. */
  function AnyNamed(ts: seq<Value>, name: Key): Py<bool>
    decreases |ts|
  {
    if ts == [] then Ok(false)
    else
      var hit :- Named(ts[0], name);
      if hit then Ok(true) else AnyNamed(ts[1..], name)
  }

  /** The loop adding each registered descriptor whose name nothing collected so far carries. */
  function Merge(all: seq<Value>, tools: Fields): Py<seq<Value>>
    decreases |tools|
  {
    if tools == [] then Ok(all)
    else
      var acc :- Merge(all, tools[..|tools| - 1]);
      var (name, tool) := tools[|tools| - 1];
      var dup :- AnyNamed(acc, name);
      Ok(if dup then acc else acc + [tool])
  }

  /** One pass of the merge loop. */
  lemma MergeStep(all: seq<Value>, tools: Fields, i: nat, acc: seq<Value>)
    requires i < |tools| && Merge(all, tools[..i]) == Ok(acc)
    ensures Merge(all, tools[..i + 1]) ==
      if AnyNamed(acc, tools[i].0).Err? then Err(AnyNamed(acc, tools[i].0).error)
      else Ok(if AnyNamed(acc, tools[i].0).value then acc else acc + [tools[i].1])
  {
    assert tools[..i + 1][..i] == tools[..i];
    assert tools[..i + 1][i] == tools[i];
  }

  /** `discover_tools`, as a function of the loaded documents and the registry. */
  function Discovered(specs: Fields, tools: Fields): Reply {
    match ConcatMap(specs, SpecTools)
    case Err(e) => Unhandled(e)
    case Ok(all) =>
      match Merge(all, tools)
      case Err(e) => Unhandled(e)
      case Ok(merged) => Json(200, Obj([
        (KStr("tools"), Arr(merged)),
        (KStr("total"), Int(|merged|)),
        (KStr("specs_loaded"), Int(|specs|))]))
  }

  /** A match found in a list is still found once more items follow. */
  lemma {:induction false} AnyNamedExtends(a: seq<Value>, b: seq<Value>, name: Key)
    requires AnyNamed(a, name) == Ok(true)
    ensures AnyNamed(a + b, name) == Ok(true)
    decreases |a|
  {
    assert a != [];
    assert (a + b)[0] == a[0];
    if Named(a[0], name) != Ok(true) {
      assert (a + b)[1..] == a[1..] + b;
      AnyNamedExtends(a[1..], b, name);
    }
  }

  /** A match is a descriptor of that name. */
  lemma {:induction false} AnyNamedSound(ts: seq<Value>, name: Key)
    requires AnyNamed(ts, name) == Ok(true)
    ensures exists j :: 0 <= j < |ts| && Named(ts[j], name) == Ok(true)
    decreases |ts|
  {
    if Named(ts[0], name) != Ok(true) {
      AnyNamedSound(ts[1..], name);
      var j :| 0 <= j < |ts[1..]| && Named(ts[1..][j], name) == Ok(true);
      assert ts[j + 1] == ts[1..][j];
    }
  }

  /** The test finds no match exactly when every item can be indexed by `'name'` and none carries the name. */
  lemma {:induction false} AnyNamedNone(ts: seq<Value>, name: Key)
    ensures AnyNamed(ts, name) == Ok(false) <==> forall j :: 0 <= j < |ts| ==> Named(ts[j], name) == Ok(false)
    decreases |ts|
  {
    if ts != [] {
      AnyNamedNone(ts[1..], name);
      if forall j :: 0 <= j < |ts| ==> Named(ts[j], name) == Ok(false) {
        forall j | 0 <= j < |ts[1..]|
          ensures Named(ts[1..][j], name) == Ok(false)
        {
          assert ts[1..][j] == ts[j + 1];
        }
      }
      if AnyNamed(ts, name) == Ok(false) {
        forall j | 0 <= j < |ts|
          ensures Named(ts[j], name) == Ok(false)
        {
          if j > 0 {
            assert ts[j] == ts[1..][j - 1];
          }
        }
      }
    }
  }

  /** The merge only appends: an earlier stage of the loop is a prefix of the result. */
  lemma {:induction false} MergePrefix(all: seq<Value>, tools: Fields, m: nat)
    requires m <= |tools| && Merge(all, tools).Ok?
    ensures Merge(all, tools[..m]).Ok?
    ensures var part := Merge(all, tools[..m]).value;
      |part| <= |Merge(all, tools).value| && Merge(all, tools).value[..|part|] == part
    decreases |tools|
  {
    if m == |tools| {
      assert tools[..m] == tools;
    } else {
      var n := |tools| - 1;
      var init := tools[..n];
      assert init[..m] == tools[..m];
      MergePrefix(all, init, m);
    }
  }

  /**
   * The document-derived tools come first and unchanged; the merge adds at
   * most one descriptor per registry entry, each a registered descriptor.
   */
  lemma {:induction false} MergeExtends(all: seq<Value>, tools: Fields)
    requires Merge(all, tools).Ok?
    ensures var r := Merge(all, tools).value;
      && |all| <= |r| <= |all| + |tools| && r[..|all|] == all
      && forall j :: |all| <= j < |r| ==> exists i :: 0 <= i < |tools| && tools[i].1 == r[j]
    decreases |tools|
  {
    if tools != [] {
      var n := |tools| - 1;
      var init := tools[..n];
      MergeExtends(all, init);
      var acc := Merge(all, init).value;
      var r := Merge(all, tools).value;
      forall j | |all| <= j < |r|
        ensures exists i :: 0 <= i < |tools| && tools[i].1 == r[j]
      {
        if j < |acc| {
          assert r[j] == acc[j];
          var i :| 0 <= i < |init| && init[i].1 == acc[j];
          assert tools[i] == init[i];
        } else {
          assert r[j] == tools[n].1;
        }
      }
    }
  }

  /** Every registered descriptor is listed, unless a listed tool already carries its name. */
  lemma MergeCovers(all: seq<Value>, tools: Fields, i: nat)
    requires Merge(all, tools).Ok? && i < |tools|
    ensures var r := Merge(all, tools).value;
      tools[i].1 in r || exists j :: 0 <= j < |r| && Named(r[j], tools[i].0) == Ok(true)
  {
    var r := Merge(all, tools).value;
    MergePrefix(all, tools, i + 1);
    MergePrefix(all, tools, i);
    var q := tools[..i + 1];
    assert q[..|q| - 1] == tools[..i];
    assert q[|q| - 1] == tools[i];
    var acc := Merge(all, tools[..i]).value;
    var after := Merge(all, q).value;
    assert r[..|after|] == after;
    if AnyNamed(acc, tools[i].0) == Ok(true) {
      AnyNamedSound(acc, tools[i].0);
      var j :| 0 <= j < |acc| && Named(acc[j], tools[i].0) == Ok(true);
      assert after == acc;
      assert r[j] == after[j];
    } else {
      assert after == acc + [tools[i].1];
      assert r[|acc|] == after[|acc|];
    }
  }

  /**
   * Every descriptor the merge appends is a registered one whose name no tool
   * listed before it carries: the merged list never names a tool twice on
   * account of the registry.
   */
  lemma {:induction false} MergeFresh(all: seq<Value>, tools: Fields)
    requires Merge(all, tools).Ok?
    ensures var r := Merge(all, tools).value;
      forall j :: |all| <= j < |r| ==>
        exists i :: 0 <= i < |tools| && r[j] == tools[i].1 &&
          forall k :: 0 <= k < j ==> Named(r[k], tools[i].0) == Ok(false)
    decreases |tools|
  {
    if tools != [] {
      var n := |tools| - 1;
      var init := tools[..n];
      MergeFresh(all, init);
      MergeExtends(all, init);
      var acc := Merge(all, init).value;
      var r := Merge(all, tools).value;
      var dup := AnyNamed(acc, tools[n].0);
      assert r == if dup.value then acc else acc + [tools[n].1];
      forall j | |all| <= j < |r|
        ensures exists i :: 0 <= i < |tools| && r[j] == tools[i].1 &&
                  forall k :: 0 <= k < j ==> Named(r[k], tools[i].0) == Ok(false)
      {
        if j < |acc| {
          var i :| 0 <= i < |init| && acc[j] == init[i].1 &&
            forall k :: 0 <= k < j ==> Named(acc[k], init[i].0) == Ok(false);
          assert tools[i] == init[i];
          forall k | 0 <= k < j
            ensures Named(r[k], tools[i].0) == Ok(false)
          {
            assert r[k] == acc[k];
          }
        } else {
          assert !dup.value && j == |acc|;
          AnyNamedNone(acc, tools[n].0);
          forall k | 0 <= k < j
            ensures Named(r[k], tools[n].0) == Ok(false)
          {
            assert r[k] == acc[k];
          }
        }
      }
    }
  }

  /** A registered descriptor whose name a document-derived tool carries is not listed twice. */
  lemma {:induction false} MergeShadowed(all: seq<Value>, tools: Fields)
    requires forall i :: 0 <= i < |tools| ==> AnyNamed(all, tools[i].0) == Ok(true)
    ensures Merge(all, tools) == Ok(all)
    decreases |tools|
  {
    if tools != [] {
      var n := |tools| - 1;
      var init := tools[..n];
      forall i | 0 <= i < |init|
        ensures AnyNamed(all, init[i].0) == Ok(true)
      {
        assert init[i] == tools[i];
      }
      MergeShadowed(all, init);
    }
  }

  /** What one document yields carries that document's id. */
  lemma SpecToolTagged(entry: (Key, Value), y: Value)
    requires SpecTools(entry).Ok? && y in SpecTools(entry).value
    ensures y.Obj? && OrderedMap.Get(y.fields, KStr("spec_id")) == Some(KeyValue(entry.0))
  {
    TagStepTagged(entry.0, P.ExtractSpec(entry.1).value, y);
  }

  /** Every descriptor the tagging loop yields carries the id it tags with. */
  lemma TagStepTagged(id: Key, endpoints: seq<P.Endpoint>, y: Value)
    requires ConcatMap(endpoints, TagStep(id)).Ok? && y in ConcatMap(endpoints, TagStep(id)).value
    ensures y.Obj? && OrderedMap.Get(y.fields, KStr("spec_id")) == Some(KeyValue(id))
  {
    var step := TagStep(id);
    ConcatMapSound(endpoints, step, y);
    var j :| 0 <= j < |endpoints| && step(endpoints[j]).Ok? && y in step(endpoints[j]).value;
    TagStepMember(id, endpoints[j], y);
  }

  /** What tagging makes of one endpoint is its descriptor, tagged with the id. */
  lemma TagStepMember(id: Key, e: P.Endpoint, y: Value)
    requires TagStep(id)(e).Ok? && y in TagStep(id)(e).value
    ensures y.Obj? && OrderedMap.Get(y.fields, KStr("spec_id")) == Some(KeyValue(id))
  {
    var t := P.ConvertSpec(e).value;
    assert TagStep(id)(e).value == [Tagged(id, t)];
    TaggedCarriesId(id, t);
  }

  lemma TaggedCarriesId(id: Key, t: P.Tool)
    ensures OrderedMap.Get(Tagged(id, t).fields, KStr("spec_id")) == Some(KeyValue(id))
  {
  }

  /** Every document-derived tool carries the id of the document it came from. */
  lemma SpecToolsTagged(specs: Fields, y: Value)
    requires ConcatMap(specs, SpecTools).Ok? && y in ConcatMap(specs, SpecTools).value
    ensures exists i :: 0 <= i < |specs| && y.Obj? &&
                        OrderedMap.Get(y.fields, KStr("spec_id")) == Some(KeyValue(specs[i].0))
  {
    ConcatMapSound(specs, SpecTools, y);
    var i :| 0 <= i < |specs| && SpecTools(specs[i]).Ok? && y in SpecTools(specs[i]).value;
    SpecToolTagged(specs[i], y);
  }

  /* ---------------------------------------------------------------- */
  /* Listing the loaded documents                                     */
  /* ---------------------------------------------------------------- */

  /** The summary `list_specs` gives of one document. */
  function SpecSummary(entry: (Key, Value)): Py<seq<Value>> {
    var info :- GetOr(entry.1, "info", EMPTY);
    var title :- GetOr(info, "title", Str("Unknown"));
    Ok([Obj([
      (KStr("id"), KeyValue(entry.0)),
      (KStr("title"), title),
      (KStr("version"), Lookup(info.fields, "version", Str("1.0.0"))),
      (KStr("description"), Lookup(info.fields, "description", Str(""))),
      (KStr("servers"), Lookup(entry.1.fields, "servers", Arr([])))])])
  }

  /** `list_specs`, as a function of the loaded documents. */
  function SpecListing(specs: Fields): Reply {
    match ConcatMap(specs, SpecSummary)
    case Ok(list) => Json(200, Obj([(KStr("specs"), Arr(list)), (KStr("count"), Int(|list|))]))
    case Err(e) => Unhandled(e)
  }

  /** A document `list_specs` can summarise: a dict whose `info`, if any, is a dict. */
  predicate Summarisable(spec: Value) {
    spec.Obj? && Lookup(spec.fields, "info", EMPTY).Obj?
  }

  lemma SpecSummaryIsSingle(entry: (Key, Value))
    ensures SpecSummary(entry).Ok? <==> Summarisable(entry.1)
    ensures SpecSummary(entry).Ok? ==> |SpecSummary(entry).value| == 1
  {
  }

  /**
   * The listing succeeds exactly when every document is summarisable; it then
   * has one entry per document, in load order, with the documented defaults
   * (`Unknown`, `1.0.0`, empty description, no servers), and `count` is their number.
   */
  lemma {:induction false} SpecListingDefaults(specs: Fields)
    ensures SpecListing(specs).Json? <==> forall j :: 0 <= j < |specs| ==> Summarisable(specs[j].1)
    ensures SpecListing(specs).Json? ==>
      var body := SpecListing(specs).body.fields;
      var list := body[0].1.items;
      && |list| == |specs|
      && body[1].1 == Int(|specs|)
      && forall i :: 0 <= i < |specs| ==> list[i] == Obj([
           (KStr("id"), KeyValue(specs[i].0)),
           (KStr("title"), Lookup(Lookup(specs[i].1.fields, "info", EMPTY).fields, "title", Str("Unknown"))),
           (KStr("version"), Lookup(Lookup(specs[i].1.fields, "info", EMPTY).fields, "version", Str("1.0.0"))),
           (KStr("description"), Lookup(Lookup(specs[i].1.fields, "info", EMPTY).fields, "description", Str(""))),
           (KStr("servers"), Lookup(specs[i].1.fields, "servers", Arr([])))])
  {
    ConcatMapOk(specs, SpecSummary);
    forall x | SpecSummary(x).Ok?
      ensures |SpecSummary(x).value| == 1
    {
      SpecSummaryIsSingle(x);
    }
    forall j | 0 <= j < |specs|
      ensures SpecSummary(specs[j]).Ok? <==> Summarisable(specs[j].1)
    {
      SpecSummaryIsSingle(specs[j]);
    }
    if ConcatMap(specs, SpecSummary).Ok? && specs != [] {
      ConcatMapSingles(specs, SpecSummary, 0);
      forall i | 0 <= i < |specs|
        ensures ConcatMap(specs, SpecSummary).value[i] == SpecSummary(specs[i]).value[0]
      {
        ConcatMapSingles(specs, SpecSummary, i);
      }
    }
  }

  /* ---------------------------------------------------------------- */
  /* Scanning a directory                                             */
  /* ---------------------------------------------------------------- */

  /** A directory as `exists()` and `glob()` see it: absent, or its entry names in scan order. */
  type Directories = string -> Option<seq<string>>

  /** The suffixes of `*.yaml`, `*.yml` and `*.json`, in the order they are scanned. */
  const PATTERNS: seq<string> := [".yaml", ".yml", ".json"]

  predicate EndsWith(s: string, suffix: string) {
    |suffix| <= |s| && s[|s| - |suffix|..] == suffix
  }

  /** `str(spec_file)` for an entry found under `directory`. */
  function JoinPath(directory: string, name: string): string {
    directory + "/" + name
  }

  /** `directory.glob('*' + suffix)`: the matching entries, as paths, in scan order. */
  function Glob(directory: string, names: seq<string>, suffix: string): (r: seq<string>)
    ensures forall p :: p in r ==> exists n :: n in names && EndsWith(n, suffix) && p == JoinPath(directory, n)
    decreases |names|
  {
    if names == [] then []
    else
      var rest := Glob(directory, names[1..], suffix);
      if EndsWith(names[0], suffix) then [JoinPath(directory, names[0])] + rest else rest
  }

  /** The paths the two nested loops visit, pattern by pattern. */
  function Candidates(directory: string, names: seq<string>, patterns: seq<string>): seq<string>
    decreases |patterns|
  {
    if patterns == [] then []
    else Candidates(directory, names, patterns[..|patterns| - 1]) + Glob(directory, names, patterns[|patterns| - 1])
  }

  /** The summary of one scanned document: its path, title and number of AI tools. */
  function Found(file: string, title: Value, count: nat): Value {
    Obj([(KStr("file"), Str(file)), (KStr("title"), title), (KStr("ai_tools_count"), Int(count))])
  }

  /**
   * The `try` body for one file: the document it loads (stored even when a
   * later step fails) and its summary, absent when any step raises.
   */
  function ScanOne(file: string, fs: P.FileSystem): (Option<(Key, Value)>, Option<Value>) {
    match P.ReadSpec(file, fs(file))
    case Err(_) => (None, None)
    case Ok(loaded) =>
      (Some(loaded),
       match P.ExtractSpec(loaded.1)
       case Err(_) => None
       case Ok(endpoints) =>
         match SpecTitle(loaded.1)
         case Err(_) => None
         case Ok(title) => Some(Found(file, title, |endpoints|)))
  }

  /** What one file contributes to the scan: the document it loads and its summary. */
  type FileStep = string -> (Option<(Key, Value)>, Option<Value>)

  function ScanStep(fs: P.FileSystem): FileStep {
    file => ScanOne(file, fs)
  }

  /** The scan loop over the candidate files: the loaded documents and the summaries so far. */
  function ScanFiles(specs: Fields, files: seq<string>, step: FileStep): (Fields, seq<Value>)
    decreases |files|
  {
    if files == [] then (specs, [])
    else
      var (stored, found) := ScanFiles(specs, files[..|files| - 1], step);
      var (loaded, summary) := step(files[|files| - 1]);
      (if loaded.Some? then OrderedMap.Put(stored, loaded.value.0, loaded.value.1) else stored,
       if summary.Some? then found + [summary.value] else found)
  }

  /** The documents the scan loads, in order. */
  function Loads(files: seq<string>, step: FileStep): Fields
    decreases |files|
  {
    if files == [] then []
    else
      var loaded := step(files[|files| - 1]).0;
      Loads(files[..|files| - 1], step) + (if loaded.Some? then [loaded.value] else [])
  }

  /** Every document that loads is stored, in order, even one whose extraction then fails. */
  lemma {:induction false} ScanStores(specs: Fields, files: seq<string>, step: FileStep)
    ensures ScanFiles(specs, files, step).0 == OrderedMap.PutAll(specs, Loads(files, step))
    decreases |files|
  {
    if files != [] {
      var n := |files| - 1;
      var init := files[..n];
      ScanStores(specs, init, step);
      var loaded := step(files[n]).0;
      var stored := ScanFiles(specs, init, step).0;
      if loaded.Some? {
        assert ScanFiles(specs, files, step).0 == OrderedMap.Put(stored, loaded.value.0, loaded.value.1);
        assert Loads(files, step) == Loads(init, step) + [loaded.value];
        OrderedMap.PutAllAppend(specs, Loads(init, step), loaded.value.0, loaded.value.1);
      } else {
        assert ScanFiles(specs, files, step).0 == stored;
        assert Loads(files, step) == Loads(init, step) + [];
        assert Loads(init, step) + [] == Loads(init, step);
      }
    }
  }

  /**
   * A file that fails is skipped and the scan goes on: the summaries are
   * exactly those of the files that succeed, whatever was loaded before.
   */
  lemma {:induction false} ScanSkipsFailures(specs: Fields, files: seq<string>, step: FileStep, y: Value)
    ensures |ScanFiles(specs, files, step).1| <= |files|
    ensures y in ScanFiles(specs, files, step).1 <==> exists i :: 0 <= i < |files| && step(files[i]).1 == Some(y)
    decreases |files|
  {
    if files != [] {
      var n := |files| - 1;
      var init := files[..n];
      ScanSkipsFailures(specs, init, step, y);
      var before := ScanFiles(specs, init, step).1;
      if y in before {
        var i :| 0 <= i < |init| && step(init[i]).1 == Some(y);
        assert init[i] == files[i];
      }
      if exists i :: 0 <= i < |files| && step(files[i]).1 == Some(y) {
        var i :| 0 <= i < |files| && step(files[i]).1 == Some(y);
        if i < n {
          assert init[i] == files[i];
        }
      }
    }
  }

  /** A summary names its own file and counts that document's AI tools. */
  lemma ScanSummary(file: string, fs: P.FileSystem)
    requires ScanOne(file, fs).1.Some?
    ensures var doc := fs(file).doc;
      && fs(file).Loaded? && P.ExtractSpec(doc).Ok?
      && ScanOne(file, fs).1 == Some(Found(file, SpecTitle(doc).value, |P.ExtractSpec(doc).value|))
  {
  }

  /** What `scan_directory` leaves behind: the reply and the loaded documents. */
  datatype Scan = Scan(reply: Reply, specs: Fields)

  /** `scan_directory`, as a function of the loaded documents, the directories and the files. */
  function ScanDirectory(specs: Fields, data: Value, defaultDir: Value, dirs: Directories, fs: P.FileSystem): Scan {
    match GetOr(data, "directory", defaultDir)
    case Err(e) => Scan(Unhandled(e), specs)
    case Ok(directory) =>
      if !directory.Str? then
        Scan(Failure(TypeError("expected str, bytes or os.PathLike object, not " + TypeName(directory))), specs)
      else
        match dirs(directory.s)
        case None => Scan(Json(404, ErrorBody("Directory not found: " + directory.s)), specs)
        case Some(names) =>
          var (stored, found) := ScanFiles(specs, Candidates(directory.s, names, PATTERNS), ScanStep(fs));
          Scan(Json(200, Obj([
            (KStr("directory"), directory),
            (KStr("specs_discovered"), Arr(found)),
            (KStr("total"), Int(|found|))])), stored)
  }

  /** A directory that does not exist gets `404` and loads nothing. */
  lemma ScanMissingDirectory(specs: Fields, data: Value, defaultDir: Value, dirs: Directories, fs: P.FileSystem)
    requires data.Obj?
    requires var d := Lookup(data.fields, "directory", defaultDir); d.Str? && dirs(d.s).None?
    ensures ScanDirectory(specs, data, defaultDir, dirs, fs) ==
      Scan(Json(404, ErrorBody("Directory not found: " + Lookup(data.fields, "directory", defaultDir).s)), specs)
  {
  }

  /* ---------------------------------------------------------------- */
  /* The handlers                                                     */
  /* ---------------------------------------------------------------- */

  /** Once a conversion has raised, the remaining endpoints are never looked at. */
  lemma {:induction false} RegisterEachErrSticks(tools: Fields, endpoints: seq<P.Endpoint>, i: nat)
    requires i <= |endpoints| && RegisterEach(tools, endpoints[..i]).error.Some?
    ensures RegisterEach(tools, endpoints) == RegisterEach(tools, endpoints[..i])
    decreases |endpoints| - i
  {
    if i < |endpoints| {
      assert endpoints[..i + 1][..i] == endpoints[..i];
      RegisterEachErrSticks(tools, endpoints, i + 1);
    } else {
      assert endpoints[..i] == endpoints;
    }
  }

  /** One pass of the registration loop: convert the next endpoint, then upsert it and count it. */
  lemma RegisterEachStep(tools: Fields, endpoints: seq<P.Endpoint>, i: nat, current: Fields, count: nat)
    requires i < |endpoints| && RegisterEach(tools, endpoints[..i]) == Progress(current, count, None)
    ensures RegisterEach(tools, endpoints[..i + 1]) ==
      if P.ConvertSpec(endpoints[i]).Err? then Progress(current, count, Some(P.ConvertSpec(endpoints[i]).error))
      else Progress(OrderedMap.Put(current, KStr(P.ConvertSpec(endpoints[i]).value.name), P.Encode(P.ConvertSpec(endpoints[i]).value)), count + 1, None)
  {
    var longer := endpoints[..i + 1];
    assert longer[..|longer| - 1] == endpoints[..i];
    assert longer[|longer| - 1] == endpoints[i];
  }

  /** Once a name test has raised, the remaining registry entries are never looked at. */
  lemma {:induction false} MergeErrSticks(all: seq<Value>, tools: Fields, i: nat)
    requires i <= |tools| && Merge(all, tools[..i]).Err?
    ensures Merge(all, tools) == Merge(all, tools[..i])
    decreases |tools| - i
  {
    if i < |tools| {
      assert tools[..i + 1][..i] == tools[..i];
      MergeErrSticks(all, tools, i + 1);
    } else {
      assert tools[..i] == tools;
    }
  }

  /** `register_spec`: obtain the document, then register its tools. */
  method RegisterSpecHandler(parser: P.Parser, registry: T.Registry, data: Value, fs: P.FileSystem, http: Transport)
    returns (reply: Reply)
    modifies parser, registry
    ensures Registration(reply, parser.specs, registry.tools) ==
      RegisterSpec(old(parser.specs), old(registry.tools), data, fs, http)
  {
    if !Truthy(data) {
      return Json(400, ErrorBody("No data provided"));
    }
    var source := SpecSource(data);
    if source.Err? {
      return Unhandled(source.error);
    }
    if !Truthy(source.value) {
      return Json(400, ErrorBody("Missing spec_path or spec_url"));
    }
    var spec: Value;
    if Truthy(Lookup(data.fields, "spec_url", Null)) {
      var fetched := Fetch(source.value, http);
      if fetched.Err? {
        return Failure(fetched.error);
      }
      spec := fetched.value;
    } else {
      if !source.value.Str? {
        return Failure(TypeError("expected str, bytes or os.PathLike object, not " + TypeName(source.value)));
      }
      var loaded := parser.LoadSpec(source.value.s, fs);
      if loaded.Err? {
        return Failure(loaded.error);
      }
      spec := loaded.value;
    }
    reply := RegisterToolsHandler(parser, registry, spec);
  }

  /** The `try` body of `register_spec` from extraction on: the counting registration loop. */
  method RegisterToolsHandler(parser: P.Parser, registry: T.Registry, spec: Value) returns (reply: Reply)
    modifies registry
    ensures Registration(reply, parser.specs, registry.tools) ==
      RegisterTools(parser.specs, old(registry.tools), spec)
  {
    var extracted := parser.ExtractAiTools(spec);
    if extracted.Err? {
      return Failure(extracted.error);
    }
    var endpoints := extracted.value;
    ghost var before := registry.tools;
    var count := 0;
    for i := 0 to |endpoints|
      invariant RegisterEach(before, endpoints[..i]) == Progress(registry.tools, count, None)
    {
      RegisterEachStep(before, endpoints, i, registry.tools, count);
      var tool := parser.ConvertToAiFormat(endpoints[i]);
      if tool.Err? {
        RegisterEachErrSticks(before, endpoints, i + 1);
        return Failure(tool.error);
      }
      registry.tools := OrderedMap.Put(registry.tools, KStr(tool.value.name), P.Encode(tool.value));
      count := count + 1;
    }
    assert endpoints[..|endpoints|] == endpoints;
    var title := SpecTitle(spec);
    if title.Err? {
      return Failure(title.error);
    }
    reply := Processed(title.value, |endpoints|, count);
  }

  /** The tools of one loaded document, each tagged with its id. */
  method CollectSpecTools(parser: P.Parser, entry: (Key, Value)) returns (r: Py<seq<Value>>)
    ensures r == SpecTools(entry)
  {
    var extracted := parser.ExtractAiTools(entry.1);
    if extracted.Err? {
      return Err(extracted.error);
    }
    var endpoints := extracted.value;
    var tagged: seq<Value> := [];
    for j := 0 to |endpoints|
      invariant ConcatMap(endpoints[..j], TagStep(entry.0)) == Ok(tagged)
    {
      ConcatMapStep(endpoints, j, TagStep(entry.0));
      var tool := parser.ConvertToAiFormat(endpoints[j]);
      if tool.Err? {
        ConcatMapErrSticks(endpoints, j + 1, TagStep(entry.0));
        return Err(tool.error);
      }
      tagged := tagged + [Tagged(entry.0, tool.value)];
    }
    assert endpoints[..|endpoints|] == endpoints;
    r := Ok(tagged);
  }

  /** The `any(...)` test, as the loop it is. */
  method AnyNamedLoop(ts: seq<Value>, name: Key) returns (r: Py<bool>)
    ensures r == AnyNamed(ts, name)
  {
    var i := 0;
    while i < |ts|
      invariant 0 <= i <= |ts| && AnyNamed(ts, name) == AnyNamed(ts[i..], name)
    {
      assert ts[i..][1..] == ts[i + 1..];
      var hit := Named(ts[i], name);
      if hit.Err? {
        return Err(hit.error);
      }
      if hit.value {
        return Ok(true);
      }
      i := i + 1;
    }
    assert ts[i..] == [];
    r := Ok(false);
  }

  /** The second loop of `discover_tools`. */
  method MergeLoop(all: seq<Value>, tools: Fields) returns (r: Py<seq<Value>>)
    ensures r == Merge(all, tools)
  {
    var acc := all;
    for i := 0 to |tools|
      invariant Merge(all, tools[..i]) == Ok(acc)
    {
      MergeStep(all, tools, i, acc);
      var dup := AnyNamedLoop(acc, tools[i].0);
      if dup.Err? {
        MergeErrSticks(all, tools, i + 1);
        return Err(dup.error);
      }
      if !dup.value {
        acc := acc + [tools[i].1];
      }
    }
    assert tools[..|tools|] == tools;
    r := Ok(acc);
  }

  /** `discover_tools`. */
  method DiscoverTools(parser: P.Parser, registry: T.Registry) returns (reply: Reply)
    ensures reply == Discovered(parser.specs, registry.tools)
  {
    var specs := parser.specs;
    var all: seq<Value> := [];
    for i := 0 to |specs|
      invariant ConcatMap(specs[..i], SpecTools) == Ok(all)
    {
      ConcatMapStep(specs, i, SpecTools);
      var more := CollectSpecTools(parser, specs[i]);
      if more.Err? {
        ConcatMapErrSticks(specs, i + 1, SpecTools);
        return Unhandled(more.error);
      }
      all := all + more.value;
    }
    assert specs[..|specs|] == specs;
    var merged := MergeLoop(all, registry.tools);
    if merged.Err? {
      return Unhandled(merged.error);
    }
    reply := Json(200, Obj([
      (KStr("tools"), Arr(merged.value)),
      (KStr("total"), Int(|merged.value|)),
      (KStr("specs_loaded"), Int(|specs|))]));
  }

  /** `list_specs`. */
  method ListSpecs(parser: P.Parser) returns (reply: Reply)
    ensures reply == SpecListing(parser.specs)
  {
    var specs := parser.specs;
    var list: seq<Value> := [];
    for i := 0 to |specs|
      invariant ConcatMap(specs[..i], SpecSummary) == Ok(list)
    {
      ConcatMapStep(specs, i, SpecSummary);
      var entry := SpecSummary(specs[i]);
      if entry.Err? {
        ConcatMapErrSticks(specs, i + 1, SpecSummary);
        return Unhandled(entry.error);
      }
      list := list + entry.value;
    }
    assert specs[..|specs|] == specs;
    reply := Json(200, Obj([(KStr("specs"), Arr(list)), (KStr("count"), Int(|list|))]));
  }

  /** The `try` body for one file, against the parser. */
  method ScanFile(parser: P.Parser, file: string, fs: P.FileSystem) returns (summary: Option<Value>)
    modifies parser
    ensures var (loaded, s) := ScanOne(file, fs);
      && summary == s
      && parser.specs == if loaded.Some? then OrderedMap.Put(old(parser.specs), loaded.value.0, loaded.value.1)
                         else old(parser.specs)
  {
    var loaded := parser.LoadSpec(file, fs);
    if loaded.Err? {
      return None;
    }
    var extracted := parser.ExtractAiTools(loaded.value);
    if extracted.Err? {
      return None;
    }
    var title := SpecTitle(loaded.value);
    if title.Err? {
      return None;
    }
    summary := Some(Found(file, title.value, |extracted.value|));
  }

  /** The inner loop of `scan_directory`: the files matching one pattern. */
  method ScanMatches(parser: P.Parser, ghost before: Fields, ghost done: seq<string>, matches: seq<string>,
                     fs: P.FileSystem, found0: seq<Value>)
    returns (found: seq<Value>)
    modifies parser
    requires ScanFiles(before, done, ScanStep(fs)) == (parser.specs, found0)
    ensures ScanFiles(before, done + matches, ScanStep(fs)) == (parser.specs, found)
  {
    found := found0;
    assert done + matches[..0] == done;
    for j := 0 to |matches|
      invariant ScanFiles(before, done + matches[..j], ScanStep(fs)) == (parser.specs, found)
    {
      ghost var visited := done + matches[..j + 1];
      assert visited[..|visited| - 1] == done + matches[..j];
      assert visited[|visited| - 1] == matches[j];
      var summary := ScanFile(parser, matches[j], fs);
      if summary.Some? {
        found := found + [summary.value];
      }
    }
    assert matches[..|matches|] == matches;
  }

  /** The outer loop of `scan_directory`: every pattern in turn. */
  method ScanAll(parser: P.Parser, dir: string, names: seq<string>, fs: P.FileSystem) returns (found: seq<Value>)
    modifies parser
    ensures ScanFiles(old(parser.specs), Candidates(dir, names, PATTERNS), ScanStep(fs)) == (parser.specs, found)
  {
    ghost var before := parser.specs;
    found := [];
    for k := 0 to |PATTERNS|
      invariant ScanFiles(before, Candidates(dir, names, PATTERNS[..k]), ScanStep(fs)) == (parser.specs, found)
    {
      var matches := Glob(dir, names, PATTERNS[k]);
      ghost var done := Candidates(dir, names, PATTERNS[..k]);
      assert PATTERNS[..k + 1][..k] == PATTERNS[..k];
      assert Candidates(dir, names, PATTERNS[..k + 1]) == done + matches;
      found := ScanMatches(parser, before, done, matches, fs, found);
    }
    assert PATTERNS[..|PATTERNS|] == PATTERNS;
  }

  /** `scan_directory`. */
  method ScanDirectoryHandler(parser: P.Parser, data: Value, defaultDir: Value, dirs: Directories, fs: P.FileSystem)
    returns (reply: Reply)
    modifies parser
    ensures Scan(reply, parser.specs) == ScanDirectory(old(parser.specs), data, defaultDir, dirs, fs)
  {
    var directory := GetOr(data, "directory", defaultDir);
    if directory.Err? {
      return Unhandled(directory.error);
    }
    if !directory.value.Str? {
      return Failure(TypeError("expected str, bytes or os.PathLike object, not " + TypeName(directory.value)));
    }
    var dir := directory.value.s;
    var names := dirs(dir);
    if names.None? {
      return Json(404, ErrorBody("Directory not found: " + dir));
    }
    var found := ScanAll(parser, dir, names.value, fs);
    reply := Json(200, Obj([
      (KStr("directory"), directory.value),
      (KStr("specs_discovered"), Arr(found)),
      (KStr("total"), Int(|found|))]));
  }
}
