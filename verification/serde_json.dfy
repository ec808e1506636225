/**
 The slice of `serde_json::Value` that the aggregator touches: the value
 shapes, the `Index` operators (`v["key"]`, `v[0]`), the `as_str`,
 `as_array` and `as_object` views, and the outcome of one HTTP request whose
 body is parsed with `response.json().await.unwrap_or_default()`.
 */
module SerdeJson {
  import opened Wrappers

  /** A JSON value. Objects are keyed maps, like serde_json's default `Map`. */
  datatype Value =
    | Null
    | Bool(b: bool)
    | Num(n: int)
    | Str(s: string)
    | Arr(items: seq<Value>)
    | Obj(fields: map<string, Value>)

  /** `v[key]`: the member named `key`, or `Null` when `v` is not an object
      or has no such member. */
  function Get(v: Value, key: string): (r: Value)
    ensures v.Obj? && key in v.fields ==> r == v.fields[key]
    ensures !(v.Obj? && key in v.fields) ==> r == Null
  {
    match v
    case Obj(fields) => if key in fields then fields[key] else Null
    case _ => Null
  }

  /** `v[i]`: the `i`-th element, or `Null` when `v` is not an array or `i`
      is out of range. */
  function At(v: Value, i: nat): (r: Value)
    ensures v.Arr? && i < |v.items| ==> r == v.items[i]
    ensures !(v.Arr? && i < |v.items|) ==> r == Null
  {
    match v
    case Arr(items) => if i < |items| then items[i] else Null
    case _ => Null
  }

  /** `m[key]` on a `serde_json::Map` (what `as_object()` hands out): the
      member named `key`, or `None` when there is none, where the source's
      indexing panics. */
  function MapIndex(m: map<string, Value>, key: string): (r: Option<Value>)
    ensures r.Some? <==> key in m
    ensures r.Some? ==> r.value == m[key]
  {
    if key in m then Some(m[key]) else None
  }

  /** `v.as_str()` */
  function AsStr(v: Value): (r: Option<string>)
    ensures r.Some? <==> v.Str?
    ensures r.Some? ==> r.value == v.s
  {
    if v.Str? then Some(v.s) else None
  }

  /** `v.as_array()` */
  function AsArray(v: Value): (r: Option<seq<Value>>)
    ensures r.Some? <==> v.Arr?
    ensures r.Some? ==> r.value == v.items
  {
    if v.Arr? then Some(v.items) else None
  }

  /** `v.as_object()` */
  function AsObject(v: Value): (r: Option<map<string, Value>>)
    ensures r.Some? <==> v.Obj?
    ensures r.Some? ==> r.value == v.fields
  {
    if v.Obj? then Some(v.fields) else None
  }

  /** `v[key].as_str().unwrap_or(default)`: a member read as text, where an
      absent member and a member that is not a string both give `default`. */
  function StrField(v: Value, key: string, default: string): (r: string)
    ensures Get(v, key).Str? ==> r == Get(v, key).s
    ensures !Get(v, key).Str? ==> r == default
  {
    AsStr(Get(v, key)).GetOr(default)
  }

  /**
   What one provider request came back with. `TransportError` is a request
   that `.ok()` turned into `None`; `Delivered(None)` is a response whose
   body did not parse as JSON; `Delivered(Some(v))` parsed to `v`. The HTTP
   status is not part of it: the source never looks at it.
   */
  datatype Response = TransportError | Delivered(parsed: Option<Value>)

  /** `response.json().await.unwrap_or_default()`: an unparseable body reads
      as `Value::default()`, which is `Null`. */
  function BodyOf(parsed: Option<Value>): (r: Value)
    ensures parsed.None? ==> r == Null
    ensures parsed.Some? ==> r == parsed.value
  {
    parsed.GetOr(Null)
  }
}
