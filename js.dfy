/** The JavaScript values the core inspects: numbers (with NaN), truthiness, object reads. */
module Js {

  /** A JavaScript number as far as the core tells numbers apart: a finite value or NaN. */
  datatype Number = Finite(value: real) | NaN

  /** A JavaScript value as it reaches the services and the request validators. */
  datatype Value =
    | Undefined
    | Null
    | Bool(b: bool)
    | Num(n: Number)
    | Str(s: string)
    | Arr(items: seq<Value>)
    | Obj(fields: seq<(string, Value)>)

  /** JavaScript truthiness: undefined, null, false, 0, NaN and "" are the falsy values. */
  predicate Truthy(v: Value) {
    match v
    case Undefined => false
    case Null => false
    case Bool(b) => b
    case Num(n) => n.Finite? && n.value != 0.0
    case Str(s) => s != ""
    case Arr(_) => true
    case Obj(_) => true
  }

  /** The keys of an object's entries, in order (generic in the key type so that a fixed set of property names can be an enumeration). */
  function Keys<K>(fields: seq<(K, Value)>): (ks: seq<K>)
    ensures |ks| == |fields|
    ensures forall i :: 0 <= i < |fields| ==> ks[i] == fields[i].0
  {
    if fields == [] then [] else Keys(fields[..|fields| - 1]) + [fields[|fields| - 1].0]
  }

  /** The property read `o[key]`: the last binding of `key` wins, and a missing key reads as undefined. */
  function Get<K(==)>(fields: seq<(K, Value)>, key: K): (v: Value)
    ensures key !in Keys(fields) ==> v == Undefined
    ensures fields != [] && fields[|fields| - 1].0 == key ==> v == fields[|fields| - 1].1
  {
    if fields == [] then Undefined
    else if fields[|fields| - 1].0 == key then fields[|fields| - 1].1
    else Get(fields[..|fields| - 1], key)
  }

  /** Appending an entry shadows the key it binds and leaves every other read alone. */
  lemma GetAppend<K>(fields: seq<(K, Value)>, entry: (K, Value), k: K)
    ensures Get(fields + [entry], k) == if entry.0 == k then entry.1 else Get(fields, k)
  {
    assert (fields + [entry])[..|fields|] == fields;
  }
}
