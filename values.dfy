/** Option and Result, used for Python's None and for raised exceptions. */
module Wrappers {
  datatype Option<+T> = None | Some(value: T)

  datatype Result<+T, +E> = Success(value: T) | Failure(error: E)
}

/**
 * The dynamically typed values that travel in message payloads.  A payload
 * is a Python dict from string keys to arbitrary values; the handlers read
 * it with `dict.get(key, default)` and test fields for Python truthiness.
 */
module Values {
  import opened Wrappers

  datatype Value =
    | Null
    | Bool(b: bool)
    | Int(i: int)
    | Str(s: string)
    | List(items: seq<Value>)
    | Dict(entries: map<string, Value>)

  type Payload = map<string, Value>

  /** Python's `payload.get(key, default)`. */
  function Get(p: Payload, key: string, default: Value): (v: Value)
    ensures key in p ==> v == p[key]
    ensures key !in p ==> v == default
  {
    if key in p then p[key] else default
  }

  /** Python's truth value: None, False, 0 and empty containers are false. */
  predicate Truthy(v: Value) {
    match v
    case Null => false
    case Bool(b) => b
    case Int(i) => i != 0
    case Str(s) => s != ""
    case List(items) => items != []
    case Dict(entries) => entries != map[]
  }

  /**
   * What a Python `for` loop over `v` visits: the items of a list, the
   * one-character strings of a string, nothing for an empty dict.  None for
   * values that cannot be iterated, and for a non-empty dict, whose key
   * order this model does not keep.
   */
  function Iterate(v: Value): (r: Option<seq<Value>>)
    ensures v.List? ==> r == Some(v.items)
    ensures v.Str? ==> r.Some? && |r.value| == |v.s|
    ensures v.Str? ==> forall k :: 0 <= k < |v.s| ==> r.value[k] == Str([v.s[k]])
    ensures v.Null? || v.Bool? || v.Int? ==> r.None?
  {
    match v
    case List(items) => Some(items)
    case Str(s) => Some(seq(|s|, k requires 0 <= k < |s| => Str([s[k]])))
    case Dict(m) => if m == map[] then Some([]) else None
    case _ => None
  }

  /** A list of Python strings. */
  function StrList(xs: seq<string>): (v: Value)
    ensures v.List? && |v.items| == |xs|
    ensures forall i :: 0 <= i < |xs| ==> v.items[i] == Str(xs[i])
  {
    List(seq(|xs|, i requires 0 <= i < |xs| => Str(xs[i])))
  }
}
