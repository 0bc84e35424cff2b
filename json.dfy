/**
 * JavaScript values as the source sees them after `JSON.parse` / axios decoding,
 * together with the three JavaScript operators the decoding code leans on:
 * truthiness, `a || b || ...` and `a ?? b ?? ...`.
 *
 * Reading a property that an object does not have yields `undefined`; every test the
 * modelled code applies to such a value (`!x`, `x != null`, `??`, `typeof x === 'number'`)
 * treats `undefined` and `null` alike, so both are `Null` here. The one exception is the
 * cache-hit check `cached !== null`, which would return a cached `undefined`.
 */
module JsonValue {

  datatype Json =
    | Null                               // null, and undefined
    | Bool(b: bool)
    | Num(n: real)                       // a finite number
    | NaN                                // the number NaN
    | Str(s: string)
    | Arr(items: seq<Json>)
    | Obj(fields: seq<(string, Json)>)   // properties in key order

  /** JavaScript truthiness: false, 0, NaN, "" and null/undefined are falsy. */
  predicate Truthy(v: Json) {
    match v
    case Null => false
    case Bool(b) => b
    case Num(n) => n != 0.0
    case NaN => false
    case Str(s) => s != ""
    case Arr(_) => true
    case Obj(_) => true
  }

  /** `typeof v === 'number'` (NaN included). */
  predicate IsNumber(v: Json) {
    v.Num? || v.NaN?
  }

  /** The value stored under `key` in a property list, or Null when there is none. */
  function Lookup(fields: seq<(string, Json)>, key: string): (r: Json)
    ensures r != Null ==> exists i :: 0 <= i < |fields| && fields[i] == (key, r)
    ensures (forall i :: 0 <= i < |fields| ==> fields[i].0 != key) ==> r == Null
  {
    if fields == [] then Null
    else if fields[0].0 == key then fields[0].1
    else Lookup(fields[1..], key)
  }

  /**
   * Property access `v.key` on a value that is not null or undefined: objects
   * answer from their properties, every other value has none of the keys the
   * modelled code reads.
   */
  function Get(v: Json, key: string): (r: Json)
    ensures !v.Obj? ==> r == Null
  {
    if v.Obj? then Lookup(v.fields, key) else Null
  }

  /** Property access along a path, `v.k1.k2...`, stopping at Null. */
  function At(v: Json, path: seq<string>): Json
    decreases path
  {
    if path == [] then v else At(Get(v, path[0]), path[1..])
  }

  /** `vals[0] || vals[1] || ...`: the first truthy operand, or the last operand when none is. */
  function OrChain(vals: seq<Json>): (r: Json)
    requires |vals| > 0
    ensures r in vals
    ensures (forall j :: 0 <= j < |vals| ==> !Truthy(vals[j])) ==> r == vals[|vals| - 1]
    ensures forall i :: 0 <= i < |vals| && Truthy(vals[i]) && (forall j :: 0 <= j < i ==> !Truthy(vals[j])) ==> r == vals[i]
    ensures !Truthy(r) ==> forall j :: 0 <= j < |vals| ==> !Truthy(vals[j])
  {
    if |vals| == 1 || Truthy(vals[0]) then vals[0]
    else
      var rest := vals[1..];
      assert forall i :: 1 <= i < |vals| ==> vals[i] == rest[i - 1];
      OrChain(rest)
  }

  /** `vals[0] ?? vals[1] ?? ...`: the first operand that is not null/undefined, or the last one. */
  function Coalesce(vals: seq<Json>): (r: Json)
    requires |vals| > 0
    ensures r in vals
    ensures (forall j :: 0 <= j < |vals| ==> vals[j] == Null) ==> r == Null
    ensures forall i :: 0 <= i < |vals| && vals[i] != Null && (forall j :: 0 <= j < i ==> vals[j] == Null) ==> r == vals[i]
  {
    if |vals| == 1 || vals[0] != Null then vals[0]
    else
      var rest := vals[1..];
      assert forall i :: 1 <= i < |vals| ==> vals[i] == rest[i - 1];
      Coalesce(rest)
  }
}
