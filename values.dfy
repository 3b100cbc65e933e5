/** The JavaScript values an index configuration is built from, and the
    shallow right-biased object merge that Underscore calls `_.extend`. */
module JsValues {

  datatype Option<T> = None | Some(value: T)

  /** The functions that can sit in a configuration. The three defaults of the
      registry are named; every other function (a caller's permission check, a
      backend's hooks) is an opaque function told apart by an identifier. */
  datatype Callable =
    | ReturnsTrue    // the default `permission`: accepts every search string
    | DefaultSort    // the default `sort`: asks the index's backend for its default sort
    | DefaultQuery   // the default `query`: asks the index's backend for its default query
    | UserFn(id: nat)

  datatype Value =
    | Undefined
    | Null
    | Bool(b: bool)
    | Num(n: int)
    | Str(s: string)
    | Arr(items: seq<Value>)
    | Obj(fields: map<string, Value>)
    | Fn(callable: Callable)

  /** A plain JavaScript object: its own enumerable properties. */
  type Config = map<string, Value>

  /** Property read: a missing property reads as `undefined`. */
  function Get(c: Config, key: string): Value
  {
    if key in c then c[key] else Undefined
  }

  /** `_.extend(target, source)`: every property of `source` is copied onto
      `target`, replacing the one already there. */
  function Extend(target: Config, source: Config): (r: Config)
    ensures r.Keys == target.Keys + source.Keys
    ensures forall k :: k in source ==> r[k] == source[k]
    ensures forall k :: k in target && k !in source ==> r[k] == target[k]
  {
    target + source
  }

  /** Extending by `b` and then by `c` is extending by `b` overlaid by `c`:
      later overlays win, whatever the grouping. */
  lemma ExtendAssociative(a: Config, b: Config, c: Config)
    ensures Extend(Extend(a, b), c) == Extend(a, Extend(b, c))
  {
  }

  /** Extending twice by the same object changes nothing the second time. */
  lemma ExtendIdempotent(a: Config, b: Config)
    ensures Extend(Extend(a, b), b) == Extend(a, b)
  {
  }
}
