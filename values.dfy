/**
 * Python values as the core sees them: JSON-like documents and the few
 * Python operations applied to them (`in`, `[...]`, `.get`, `.items()`,
 * truthiness, `str()`), each failing the way Python fails.
 */
module Values {
  import opened Wrappers
  import opened Strings
  import OrderedMap

  /**
   * The hash-normal form of a Python dictionary key that a JSON value can be.
   * Python treats `True` and `1` (and `False` and `0`) as the same key, so a
   * boolean key is an integer key here.
   */
  datatype Key = KNone | KInt(n: int) | KStr(s: string)

  datatype Value =
    | Null
    | Bool(b: bool)
    | Int(i: int)
    | Str(s: string)
    | Arr(items: seq<Value>)
    | Obj(fields: seq<(Key, Value)>)

  /** A Python dict from hashable values to values, in insertion order. */
  type Fields = OrderedMap.Map<Key, Value>

  /** The exceptions the modelled code can raise, with what `str(e)` shows. */
  datatype PyError =
    | KeyError(key: Key)
    | TypeError(message: string)
    | AttributeError(message: string)
    | Raised(message: string)

  type Py<T> = Result<T, PyError>

  const EMPTY: Value := Obj([])

  /** A key read back as the value it was made from. */
  function KeyValue(k: Key): Value {
    match k
    case KNone => Null
    case KInt(n) => Int(n)
    case KStr(s) => Str(s)
  }

  function TypeName(v: Value): string {
    match v
    case Null => "NoneType"
    case Bool(_) => "bool"
    case Int(_) => "int"
    case Str(_) => "str"
    case Arr(_) => "list"
    case Obj(_) => "dict"
  }

  /** Hashing a value to use it as a dictionary key: lists and dicts are unhashable. */
  function KeyOf(v: Value): (r: Py<Key>)
    ensures r.Ok? <==> !v.Arr? && !v.Obj?
    ensures r.Ok? ==> KeyValue(r.value) == (if v.Bool? then Int(if v.b then 1 else 0) else v)
  {
    match v
    case Null => Ok(KNone)
    case Bool(b) => Ok(KInt(if b then 1 else 0))
    case Int(n) => Ok(KInt(n))
    case Str(s) => Ok(KStr(s))
    case _ => Err(TypeError("unhashable type: '" + TypeName(v) + "'"))
  }

  /** Python's truthiness (`if v:` / `not v`). */
  predicate Truthy(v: Value) {
    match v
    case Null => false
    case Bool(b) => b
    case Int(n) => n != 0
    case Str(s) => s != ""
    case Arr(items) => items != []
    case Obj(fields) => fields != []
  }

  /** Python's `item in container` for a string `item`. */
  function In(item: string, container: Value): (r: Py<bool>)
    ensures container.Obj? ==> r == Ok(KStr(item) in OrderedMap.Keys(container.fields))
    ensures container.Str? ==> r == Ok(Contains(container.s, item))
    ensures r.Err? <==> container.Null? || container.Bool? || container.Int?
  {
    match container
    case Obj(fields) => Ok(KStr(item) in OrderedMap.Keys(fields))
    case Arr(items) => Ok(Str(item) in items)
    case Str(s) => Ok(Contains(s, item))
    case _ => Err(TypeError("argument of type '" + TypeName(container) + "' is not iterable"))
  }

  /** Python's `v[key]` for a string `key`. */
  function Index(v: Value, key: string): (r: Py<Value>)
    ensures r.Ok? <==> v.Obj? && KStr(key) in OrderedMap.Keys(v.fields)
    ensures r.Ok? ==> OrderedMap.Get(v.fields, KStr(key)) == Some(r.value)
    ensures v.Obj? && r.Err? ==> r.error == KeyError(KStr(key))
  {
    match v
    case Obj(fields) =>
      (match OrderedMap.Get(fields, KStr(key))
       case Some(x) => Ok(x)
       case None => Err(KeyError(KStr(key))))
    case Arr(_) => Err(TypeError("list indices must be integers or slices, not str"))
    case Str(_) => Err(TypeError("string indices must be integers, not 'str'"))
    case _ => Err(TypeError("'" + TypeName(v) + "' object is not subscriptable"))
  }

  /** Python's `v.get(key, default)`; only a dict has `.get`. */
  function GetOr(v: Value, key: string, default: Value): (r: Py<Value>)
    ensures r.Ok? <==> v.Obj?
    ensures v.Obj? ==> r.value == OrderedMap.Get(v.fields, KStr(key)).GetOr(default)
  {
    match v
    case Obj(fields) => Ok(OrderedMap.Get(fields, KStr(key)).GetOr(default))
    case _ => Err(AttributeError("'" + TypeName(v) + "' object has no attribute 'get'"))
  }

  /** `d.get(key, default)` on what is known to be a dict. */
  function Lookup(d: Fields, key: string, default: Value): Value {
    OrderedMap.Get(d, KStr(key)).GetOr(default)
  }

  /** Python's `v.items()`; only a dict has `.items`. */
  function Items(v: Value): (r: Py<Fields>)
    ensures r.Ok? <==> v.Obj?
    ensures v.Obj? ==> r.value == v.fields
  {
    match v
    case Obj(fields) => Ok(fields)
    case _ => Err(AttributeError("'" + TypeName(v) + "' object has no attribute 'items'"))
  }

  /** Python's `v[n]` for an integer `n`. */
  function IndexAt(v: Value, n: int): (r: Py<Value>)
    ensures v.Arr? && 0 <= n < |v.items| ==> r == Ok(v.items[n])
  {
    match v
    case Arr(items) => if 0 <= n < |items| then Ok(items[n]) else Err(Raised("list index out of range"))
    case Str(s) => if 0 <= n < |s| then Ok(Str([s[n]])) else Err(Raised("string index out of range"))
    case Obj(fields) =>
      (match OrderedMap.Get(fields, KInt(n))
       case Some(x) => Ok(x)
       case None => Err(KeyError(KInt(n))))
    case _ => Err(TypeError("'" + TypeName(v) + "' object is not subscriptable"))
  }

  /**
   * What a `for` loop over `v` visits: the items of a list, the keys of a
   * dict, the characters of a string; anything else is not iterable.
   */
  function Iterate(v: Value): (r: Py<seq<Value>>)
    ensures r.Ok? <==> v.Arr? || v.Obj? || v.Str?
    ensures v.Arr? ==> r == Ok(v.items)
  {
    match v
    case Arr(items) => Ok(items)
    case Obj(fields) => Ok(seq(|fields|, i requires 0 <= i < |fields| => KeyValue(fields[i].0)))
    case Str(s) => Ok(seq(|s|, i requires 0 <= i < |s| => Str([s[i]])))
    case _ => Err(TypeError("'" + TypeName(v) + "' object is not iterable"))
  }

  /**
   * A loop that appends what each element yields to a list and stops at the
   * first exception, written over the prefix seen so far.
   */
  function ConcatMap<T, U>(xs: seq<T>, f: T -> Py<seq<U>>): Py<seq<U>>
    decreases |xs|
  {
    if xs == [] then Ok([])
    else
      var acc :- ConcatMap(xs[..|xs| - 1], f);
      var more :- f(xs[|xs| - 1]);
      Ok(acc + more)
  }

  /** One more loop iteration. */
  lemma ConcatMapStep<T, U>(xs: seq<T>, i: nat, f: T -> Py<seq<U>>)
    requires i < |xs|
    ensures ConcatMap(xs[..i + 1], f) ==
      match ConcatMap(xs[..i], f)
      case Err(e) => Err(e)
      case Ok(acc) =>
        match f(xs[i])
        case Err(e) => Err(e)
        case Ok(more) => Ok(acc + more)
  {
    assert xs[..i + 1][..i] == xs[..i];
  }

  /** Once the loop has raised, the rest of the list is never looked at. */
  lemma {:induction false} ConcatMapErrSticks<T, U>(xs: seq<T>, i: nat, f: T -> Py<seq<U>>)
    requires i <= |xs| && ConcatMap(xs[..i], f).Err?
    ensures ConcatMap(xs, f) == ConcatMap(xs[..i], f)
    decreases |xs| - i
  {
    if i < |xs| {
      ConcatMapStep(xs, i, f);
      ConcatMapErrSticks(xs, i + 1, f);
    } else {
      assert xs[..i] == xs;
    }
  }

  /** Everything collected comes from some element, in the element's own yield. */
  lemma {:induction false} ConcatMapSound<T, U>(xs: seq<T>, f: T -> Py<seq<U>>, y: U)
    requires ConcatMap(xs, f).Ok? && y in ConcatMap(xs, f).value
    ensures exists i :: 0 <= i < |xs| && f(xs[i]).Ok? && y in f(xs[i]).value
    decreases |xs|
  {
    var n := |xs| - 1;
    var init := xs[..n];
    var acc := ConcatMap(init, f).value;
    if y in acc {
      ConcatMapSound(init, f, y);
      var i :| 0 <= i < |init| && f(init[i]).Ok? && y in f(init[i]).value;
      assert init[i] == xs[i];
    } else {
      assert f(xs[n]).Ok? && y in f(xs[n]).value;
    }
  }

  /** When the loop finishes, every element was processed and all it yielded was kept. */
  lemma {:induction false} ConcatMapComplete<T, U>(xs: seq<T>, f: T -> Py<seq<U>>, i: nat)
    requires ConcatMap(xs, f).Ok? && i < |xs|
    ensures f(xs[i]).Ok? && forall y :: y in f(xs[i]).value ==> y in ConcatMap(xs, f).value
    decreases |xs|
  {
    var n := |xs| - 1;
    if i < n {
      ConcatMapComplete(xs[..n], f, i);
      assert xs[..n][i] == xs[i];
    }
  }

  /** When every element yields exactly one item, the result lists those items in order. */
  lemma {:induction false} ConcatMapSingles<T, U>(xs: seq<T>, f: T -> Py<seq<U>>, i: nat)
    requires ConcatMap(xs, f).Ok? && i < |xs|
    requires forall x :: f(x).Ok? ==> |f(x).value| == 1
    ensures |ConcatMap(xs, f).value| == |xs|
    ensures f(xs[i]).Ok? && ConcatMap(xs, f).value[i] == f(xs[i]).value[0]
    decreases |xs|
  {
    var n := |xs| - 1;
    var init := xs[..n];
    var acc := ConcatMap(init, f).value;
    var more := f(xs[n]).value;
    if i < n {
      ConcatMapSingles(init, f, i);
      assert init[i] == xs[i];
      assert (acc + more)[i] == acc[i];
    } else {
      if n > 0 {
        ConcatMapSingles(init, f, 0);
      }
      assert (acc + more)[n] == more[0];
    }
  }

  /** A failing loop has a first failing item: every item before it succeeds and its exception is the loop's. */
  lemma {:induction false} ConcatMapFirstErr<T, U>(xs: seq<T>, f: T -> Py<seq<U>>)
    requires ConcatMap(xs, f).Err?
    ensures exists i :: 0 <= i < |xs| && ConcatMap(xs[..i], f).Ok? && f(xs[i]).Err? &&
                        ConcatMap(xs, f) == Err(f(xs[i]).error)
    decreases |xs|
  {
    var n := |xs| - 1;
    var init := xs[..n];
    if ConcatMap(init, f).Err? {
      ConcatMapFirstErr(init, f);
      var i :| 0 <= i < |init| && ConcatMap(init[..i], f).Ok? && f(init[i]).Err? &&
               ConcatMap(init, f) == Err(f(init[i]).error);
      assert init[..i] == xs[..i] && init[i] == xs[i];
    } else {
      assert ConcatMap(xs, f) == Err(f(xs[n]).error);
    }
  }

  /** The loop finishes exactly when no element raises. */

  lemma {:induction false} ConcatMapOk<T, U>(xs: seq<T>, f: T -> Py<seq<U>>)
    ensures ConcatMap(xs, f).Ok? <==> forall i :: 0 <= i < |xs| ==> f(xs[i]).Ok?
    decreases |xs|
  {
    if xs != [] {
      var n := |xs| - 1;
      var init := xs[..n];
      ConcatMapOk(init, f);
      if ConcatMap(xs, f).Ok? {
        forall i | 0 <= i < |xs|
          ensures f(xs[i]).Ok?
        {
          if i < n {
            assert init[i] == xs[i];
          }
        }
      }
      if forall i :: 0 <= i < |xs| ==> f(xs[i]).Ok? {
        forall i | 0 <= i < n
          ensures f(init[i]).Ok?
        {
          assert init[i] == xs[i];
        }
      }
    }
  }

  /** Python's `repr(k)` for a dictionary key. */
  function KeyRepr(k: Key): string {
    match k
    case KNone => "None"
    case KInt(n) => IntToString(n)
    case KStr(s) => "'" + s + "'"
  }

  /** Python's `repr(v)`; strings are quoted with `'`. */
  function Repr(v: Value): string
    decreases v, 1
  {
    if v.Str? then "'" + v.s + "'" else PyStr(v)
  }

  /** Python's `str(v)`, also what an f-string shows for `{v}`. */
  function PyStr(v: Value): string
    decreases v, 0
  {
    match v
    case Null => "None"
    case Bool(b) => if b then "True" else "False"
    case Int(n) => IntToString(n)
    case Str(s) => s
    case Arr(items) =>
      "[" + Join(seq(|items|, i requires 0 <= i < |items| => Repr(items[i])), ", ") + "]"
    case Obj(fields) =>
      "{" + Join(seq(|fields|, i requires 0 <= i < |fields|
                     => KeyRepr(fields[i].0) + ": " + Repr(fields[i].1)), ", ") + "}"
  }

  /** What `str(e)` shows for an exception. */
  function Message(e: PyError): string {
    match e
    case KeyError(k) => KeyRepr(k)
    case TypeError(m) => m
    case AttributeError(m) => m
    case Raised(m) => m
  }
}
