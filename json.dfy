/** Decoded JSON values as Python's json module hands them to the agents, with the two
    dictionary operations the pipeline relies on: `dict.get` with a default and truthiness. */
module Json {

  datatype Option<+T> = None | Some(value: T)

  /** The Python exceptions the modelled code can raise and does not catch. */
  datatype PyError =
    | AttributeError(detail: string)
    | TypeError(detail: string)
    | IndexError(detail: string)

  /** A computation that either returns a value or raises. */
  datatype Result<+T> = Ok(value: T) | Err(error: PyError)

  /** A decoded JSON document. Objects are keyed maps; key order is not observable in the model. */
  datatype Json =
    | JNull
    | JBool(b: bool)
    | JNum(n: real)
    | JStr(s: string)
    | JArr(items: seq<Json>)
    | JObj(fields: map<string, Json>)

  /** The empty dict `{}` that the decoders and the fallbacks use. */
  const EmptyObject: Json := JObj(map[])

  /** Python truthiness of a decoded value: `None`, `False`, `0`, `""`, `[]` and `{}` are false. */
  predicate Truthy(j: Json)
  {
    match j
    case JNull => false
    case JBool(b) => b
    case JNum(n) => n != 0.0
    case JStr(s) => s != ""
    case JArr(items) => items != []
    case JObj(fields) => fields != map[]
  }

  /** `obj.get(key, default)` on a dict. */
  function Get(obj: map<string, Json>, key: string, default: Json): (r: Json)
    ensures key in obj ==> r == obj[key]
    ensures key !in obj ==> r == default
  {
    if key in obj then obj[key] else default
  }

  /** The value a number comparison sees: Python compares bools as 0 and 1; other
      non-numbers make `<` raise a TypeError, modelled as `None`. */
  function AsNumber(j: Json): (r: Option<real>)
    ensures j.JNum? ==> r == Some(j.n)
    ensures r.None? <==> !(j.JNum? || j.JBool?)
  {
    match j
    case JNum(n) => Some(n)
    case JBool(b) => Some(if b then 1.0 else 0.0)
    case _ => None
  }

  /** The number a bool stands for under Python's `==`: `True == 1` and `False == 0`. */
  function NumberOf(j: Json): real
    requires j.JNum? || j.JBool?
  {
    if j.JNum? then j.n else if j.b then 1.0 else 0.0
  }

  /** Python's `==` on decoded values. Bools and numbers compare as numbers, lists element by
      element, dicts key by key; values of other differing kinds are unequal. */
  predicate PyEq(a: Json, b: Json)
    decreases a, 1
  {
    if (a.JNum? || a.JBool?) && (b.JNum? || b.JBool?) then NumberOf(a) == NumberOf(b)
    else if a.JArr? && b.JArr? then PyEqItems(a.items, b.items)
    else if a.JObj? && b.JObj? then PyEqFields(a.fields, b.fields)
    else a == b
  }

  /** List equality: the same length and equal elements. */
  predicate PyEqItems(xs: seq<Json>, ys: seq<Json>)
    decreases JArr(xs), 0
  {
    |xs| == |ys| && forall i :: 0 <= i < |xs| ==> PyEq(xs[i], ys[i])
  }

  /** Dict equality: the same keys and equal values. */
  predicate PyEqFields(fs: map<string, Json>, gs: map<string, Json>)
    decreases JObj(fs), 0
  {
    fs.Keys == gs.Keys && forall k :: k in fs ==> PyEq(fs[k], gs[k])
  }

  /** A value holding no bool anywhere. */
  predicate BoolFree(j: Json)
  {
    match j
    case JBool(_) => false
    case JArr(xs) => forall i :: 0 <= i < |xs| ==> BoolFree(xs[i])
    case JObj(fs) => forall k :: k in fs ==> BoolFree(fs[k])
    case _ => true
  }

  /** Every value equals itself. */
  lemma {:induction false} PyEqReflexive(a: Json)
    ensures PyEq(a, a)
    decreases a
  {
    match a
    case JArr(xs) =>
      forall i | 0 <= i < |xs|
        ensures PyEq(xs[i], xs[i])
      {
        PyEqReflexive(xs[i]);
      }
    case JObj(fs) =>
      forall k | k in fs
        ensures PyEq(fs[k], fs[k])
      {
        PyEqReflexive(fs[k]);
      }
    case _ =>
  }

  /** Between values holding no bool, Python's `==` is plain equality of the values. */
  lemma {:induction false} PyEqWithoutBools(a: Json, b: Json)
    requires BoolFree(a) && BoolFree(b)
    ensures PyEq(a, b) <==> a == b
    decreases a
  {
    match a
    case JArr(xs) =>
      if b.JArr? && |xs| == |b.items| {
        forall i | 0 <= i < |xs|
          ensures PyEq(xs[i], b.items[i]) <==> xs[i] == b.items[i]
        {
          PyEqWithoutBools(xs[i], b.items[i]);
        }
        assert PyEq(a, b) <==> PyEqItems(xs, b.items);
        if PyEq(a, b) {
          assert xs == b.items;
        }
      }
    case JObj(fs) =>
      if b.JObj? && fs.Keys == b.fields.Keys {
        forall k | k in fs
          ensures PyEq(fs[k], b.fields[k]) <==> fs[k] == b.fields[k]
        {
          PyEqWithoutBools(fs[k], b.fields[k]);
        }
        assert PyEq(a, b) <==> PyEqFields(fs, b.fields);
        if PyEq(a, b) {
          assert fs == b.fields;
        }
      }
    case _ =>
  }

  /** A bool equals exactly the number 1 or 0 it stands for, and no string or container. */
  lemma PyEqBool(v: bool, b: Json)
    ensures PyEq(JBool(v), b) <==> (b.JBool? && b.b == v) || (b.JNum? && b.n == (if v then 1.0 else 0.0))
  {
  }
}
