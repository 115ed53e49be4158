/** Python values as json.load returns them, the exceptions the packaging code can raise,
    and the handful of Python operations (`in`, `x[k]`, `dict.get`, iteration, truthiness)
    that the code applies to them. */
module Values {

  datatype Option<T> = None | Some(value: T)

  /** The Python exceptions the modelled code can raise. Each one aborts the whole run. */
  datatype Exc =
    | TypeError           // wrong operand type (re.sub on a non-string, iterating a number, ...)
    | AttributeError      // `.remove` / `.get` on a value that has no such method
    | ValueError          // tuple unpacking of the wrong number of fields
    | FileExistsError     // os.mkdir on an existing path
    | NotADirectoryError  // opening poncho/set_env when poncho is a regular file
    | CalledProcessError  // an external command exited with a non-zero status
    | IndexError          // indexing past the end of a list

  datatype Result<T> = Ok(value: T) | Err(exc: Exc)

  /** A JSON value after json.load. An object lists its fields in insertion order; keys are
      distinct, as in the Python dict the loader builds. Numbers are integers only. */
  datatype Json =
    | Null
    | Bool(b: bool)
    | Num(n: int)
    | Str(s: string)
    | Arr(items: seq<Json>)
    | Obj(fields: seq<(string, Json)>)

  /** `d[key]` when `key in d`, for the fields of a dict. */
  function Lookup(fields: seq<(string, Json)>, key: string): (r: Option<Json>)
    ensures r.Some? ==> (key, r.value) in fields
    ensures r.None? ==> forall i :: 0 <= i < |fields| ==> fields[i].0 != key
  {
    if fields == [] then None
    else if fields[0].0 == key then Some(fields[0].1)
    else Lookup(fields[1..], key)
  }

  /** `d.get(key, default)` */
  function Get(fields: seq<(string, Json)>, key: string, default: Json): Json
  {
    match Lookup(fields, key)
    case Some(v) => v
    case None => default
  }

  /** `d[key] = v` for a key the dict already has: the field keeps its position. */
  function SetField(fields: seq<(string, Json)>, key: string, v: Json): (r: seq<(string, Json)>)
    ensures |r| == |fields|
    ensures Lookup(fields, key).Some? ==> Lookup(r, key) == Some(v)
  {
    if fields == [] then []
    else if fields[0].0 == key then [(key, v)] + fields[1..]
    else [fields[0]] + SetField(fields[1..], key, v)
  }

  /** `needle in hay` for two strings. */
  predicate IsSubstring(needle: string, hay: string)
    decreases |hay|
  {
    needle <= hay || (hay != [] && IsSubstring(needle, hay[1..]))
  }

  /** `list(j)`: what a Python for-loop over j visits. A list yields its elements, a string its
      one-character strings, a dict its keys; anything else is not iterable (TypeError). */
  function Iterate(j: Json): (r: Option<seq<Json>>)
    ensures j.Arr? ==> r == Some(j.items)
    ensures r.Some? <==> j.Arr? || j.Str? || j.Obj?
    ensures r.Some? && !j.Arr? ==> forall k :: 0 <= k < |r.value| ==> r.value[k].Str?
  {
    match j
    case Arr(items) => Some(items)
    case Str(s) => Some(seq(|s|, k requires 0 <= k < |s| => Str([s[k]])))
    case Obj(fields) => Some(seq(|fields|, k requires 0 <= k < |fields| => Str(fields[k].0)))
    case _ => None
  }

  /** The idiom `x = None; if key in v: x = v[key]` applied to one entry `v` of a spec section.
      `in` on a string is a substring test and on a list a membership test, and indexing either
      with a string key then raises TypeError; `in` on a number, a boolean or null raises
      TypeError at once. */
  function OptionalField(v: Json, key: string): (r: Result<Option<Json>>)
    ensures v.Obj? ==> r == Ok(Lookup(v.fields, key))
  {
    match v
    case Obj(fields) => Ok(Lookup(fields, key))
    case Str(s) => if IsSubstring(key, s) then Err(TypeError) else Ok(None)
    case Arr(items) => if Str(key) in items then Err(TypeError) else Ok(None)
    case _ => Err(TypeError)
  }

  /** Python truthiness of a JSON value. */
  predicate Truthy(j: Json)
  {
    match j
    case Null => false
    case Bool(b) => b
    case Num(n) => n != 0
    case Str(s) => s != ""
    case Arr(items) => items != []
    case Obj(fields) => fields != []
  }

  /** Truthiness of a variable that starts out as None and may be set from the spec. */
  predicate IsSet(x: Option<Json>)
  {
    x.Some? && Truthy(x.value)
  }

  predicate Distinct<T(==)>(xs: seq<T>)
  {
    forall i, j :: 0 <= i < j < |xs| ==> xs[i] != xs[j]
  }

  /** Python's `list.remove(x)`: drop the first element equal to x. */
  function RemoveFirst<T(==)>(xs: seq<T>, x: T): (r: seq<T>)
    requires x in xs
    ensures |r| == |xs| - 1
  {
    if xs[0] == x then xs[1..] else [xs[0]] + RemoveFirst(xs[1..], x)
  }

  /** Removing x from a list whose first occurrence of x follows the prefix a leaves a and the rest. */
  lemma {:induction false} RemoveFirstAfter<T>(a: seq<T>, x: T, b: seq<T>)
    requires x !in a
    ensures x in a + [x] + b
    ensures RemoveFirst(a + [x] + b, x) == a + b
  {
    if a != [] {
      assert (a + [x] + b)[1..] == a[1..] + [x] + b;
      RemoveFirstAfter(a[1..], x, b);
    } else {
      assert a + [x] + b == [x] + b;
    }
  }
}
