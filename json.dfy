/**
 * Values produced by `json.loads`, and the Python dict that holds a decoded
 * request body: its keys in insertion order, each bound to one value.
 */
module Json {
  import opened Wrappers

  /** A decoded JSON value. Numbers are integers here. */
  datatype Value =
    | JNull
    | JBool(b: bool)
    | JNum(n: int)
    | JStr(s: string)
    | JArray(elems: seq<Value>)
    | JObject(entries: seq<(string, Value)>)

  /** Python's truth value of a decoded value: `not v` is its negation. */
  predicate Truthy(v: Value) {
    match v
    case JNull => false
    case JBool(b) => b
    case JNum(n) => n != 0
    case JStr(s) => s != ""
    case JArray(elems) => elems != []
    case JObject(entries) => entries != []
  }

  predicate Distinct(ks: seq<string>) {
    forall i, j :: 0 <= i < j < |ks| ==> ks[i] != ks[j]
  }

  /** The keys in insertion order and the binding of each. */
  datatype DictRep = DictRep(keys: seq<string>, bindings: map<string, Value>)

  predicate WellFormed(d: DictRep) {
    && Distinct(d.keys)
    && (forall k :: k in d.bindings ==> k in d.keys)
    && (forall i :: 0 <= i < |d.keys| ==> d.keys[i] in d.bindings)
  }

  /** A Python dict with string keys. */
  type Dict = d: DictRep | WellFormed(d) witness DictRep([], map[])

  /** `len(d)`. */
  function Len(d: Dict): nat {
    |d.keys|
  }

  /** `d.get(k)`: the value bound to `k`, or None when `k` is absent. */
  function Get(d: Dict, k: string): (r: Option<Value>)
    ensures r.Some? <==> k in d.keys
  {
    if k in d.bindings then Some(d.bindings[k]) else None
  }

  /** `d[k] = v`: a key already present keeps its place, a new key goes last. */
  function Set(d: Dict, k: string, v: Value): (r: Dict)
    ensures forall x :: Get(r, x) == if x == k then Some(v) else Get(d, x)
    ensures k in d.keys ==> r.keys == d.keys
    ensures k !in d.keys ==> r.keys == d.keys + [k]
  {
    if k in d.keys then DictRep(d.keys, d.bindings[k := v])
    else DictRep(d.keys + [k], d.bindings[k := v])
  }

  /** The keys without `k`, the others in their order. */
  function Without(ks: seq<string>, k: string): (r: seq<string>)
    ensures forall x :: x in r <==> x in ks && x != k
    ensures Distinct(ks) ==> Distinct(r)
    ensures Distinct(ks) && k in ks ==> |r| == |ks| - 1
    ensures k !in ks ==> r == ks
  {
    if ks == [] then []
    else if ks[0] == k then Without(ks[1..], k)
    else
      var r := [ks[0]] + Without(ks[1..], k);
      assert Distinct(ks) ==> ks[0] !in ks[1..];
      r
  }

  /** `del d[k]`: the remaining keys keep their order. */
  function Del(d: Dict, k: string): (r: Dict)
    ensures forall x :: Get(r, x) == if x == k then None else Get(d, x)
    ensures r.keys == Without(d.keys, k)
  {
    var ks := Without(d.keys, k);
    assert forall i :: 0 <= i < |ks| ==> ks[i] in ks;
    DictRep(ks, d.bindings - {k})
  }
}
