/**
 * Turning the people-search records into person pins, and the zoom targets of the
 * two click handlers (src/components/map/MapContainer.tsx).
 *
 * There is no distance filter here: the 30 km radius only travels to the search API.
 */
module PinExtraction {
  import opened Wrappers
  import opened JsonValue
  import opened Geo
  import opened Indices

  /** The flat latitude fields, probed in this order. */
  const LatitudeKeys: seq<string> :=
    ["Residence_Addresses_Latitude", "Latitude", "latitude", "LAT", "Residence_Latitude", "Address_Latitude"]
  /** The flat longitude fields, probed in this order. */
  const LongitudeKeys: seq<string> :=
    ["Residence_Addresses_Longitude", "Longitude", "longitude", "LONG", "LON", "Residence_Longitude", "Address_Longitude"]
  /** The one nested object consulted when the flat probe finds nothing truthy. */
  const NestedKey: string := "Residence_Addresses"
  const NestedLatitudeKeys: seq<string> := ["Latitude", "latitude"]
  const NestedLongitudeKeys: seq<string> := ["Longitude", "longitude"]
  /** The field holding a person's stable id. */
  const IdKey: string := "LALVOTERID"

  /** The values of `keys` in a record, in key order. */
  function Fields(rec: Json, keys: seq<string>): (vs: seq<Json>)
    ensures |vs| == |keys|
    ensures forall i :: 0 <= i < |keys| ==> vs[i] == Get(rec, keys[i])
  {
    seq(|keys|, i requires 0 <= i < |keys| => Get(rec, keys[i]))
  }

  /** `v.K1 || v.K2 || ...`: the first truthy field, else the last one; falsy only when every field is. */
  function Probe(v: Json, keys: seq<string>): (r: Json)
    requires |keys| > 0
    ensures forall i ::
              0 <= i < |keys| && Truthy(Get(v, keys[i])) && (forall j :: 0 <= j < i ==> !Truthy(Get(v, keys[j])))
              ==> r == Get(v, keys[i])
    ensures (forall j :: 0 <= j < |keys| ==> !Truthy(Get(v, keys[j]))) ==> r == Get(v, keys[|keys| - 1])
    ensures !Truthy(r) ==> forall j :: 0 <= j < |keys| ==> !Truthy(Get(v, keys[j]))
  {
    OrChain(Fields(v, keys))
  }

  /**
   * `person.K1 || person.K2 || ...`, and when that is falsy and the record has a truthy
   * `Residence_Addresses`, `person.Residence_Addresses.N1 || person.Residence_Addresses.N2`.
   */
  function Coordinate(rec: Json, keys: seq<string>, nestedKeys: seq<string>): (v: Json)
    requires |keys| > 0 && |nestedKeys| > 0
    ensures forall i ::
              0 <= i < |keys| && Truthy(Get(rec, keys[i])) && (forall j :: 0 <= j < i ==> !Truthy(Get(rec, keys[j])))
              ==> v == Get(rec, keys[i])
    ensures (forall j :: 0 <= j < |keys| ==> !Truthy(Get(rec, keys[j]))) && !Truthy(Get(rec, NestedKey))
      ==> v == Get(rec, keys[|keys| - 1])
    ensures (forall j :: 0 <= j < |keys| ==> !Truthy(Get(rec, keys[j]))) && Truthy(Get(rec, NestedKey))
      ==> forall i ::
            0 <= i < |nestedKeys| && Truthy(Get(Get(rec, NestedKey), nestedKeys[i]))
            && (forall j :: 0 <= j < i ==> !Truthy(Get(Get(rec, NestedKey), nestedKeys[j])))
            ==> v == Get(Get(rec, NestedKey), nestedKeys[i])
    ensures (forall j :: 0 <= j < |keys| ==> !Truthy(Get(rec, keys[j]))) && Truthy(Get(rec, NestedKey))
            && (forall j :: 0 <= j < |nestedKeys| ==> !Truthy(Get(Get(rec, NestedKey), nestedKeys[j])))
      ==> v == Get(Get(rec, NestedKey), nestedKeys[|nestedKeys| - 1])
  {
    var flat := Probe(rec, keys);
    var nested := Get(rec, NestedKey);
    if !Truthy(flat) && Truthy(nested) then Probe(nested, nestedKeys) else flat
  }

  function Latitude(rec: Json): Json {
    Coordinate(rec, LatitudeKeys, NestedLatitudeKeys)
  }

  function Longitude(rec: Json): Json {
    Coordinate(rec, LongitudeKeys, NestedLongitudeKeys)
  }

  /**
   * `parseFloat(v)` with NaN as None. A number parses as itself; a string goes through
   * the decimal text parser `parseText`; null, booleans and objects give NaN.
   */
  function ParseFloat(v: Json, parseText: string -> Option<real>): (r: Option<real>)
    ensures v.Num? ==> r == Some(v.n)
    ensures !v.Num? && !v.Str? ==> r == None
  {
    match v
    case Num(n) => Some(n)
    case Str(s) => parseText(s)
    case _ => None
  }

  /** `hasValidCoords`: both values are present and both parse as numbers. */
  predicate HasValidCoords(rec: Json, parseText: string -> Option<real>) {
    && Latitude(rec) != Null && Longitude(rec) != Null
    && ParseFloat(Latitude(rec), parseText).Some?
    && ParseFloat(Longitude(rec), parseText).Some?
  }

  /** `person.LALVOTERID || person-<random>`: the record's own id when it is a non-empty string. */
  function PinId(rec: Json, fallbackId: string): (id: string)
    ensures Get(rec, IdKey).Str? && Get(rec, IdKey).s != "" ==> id == Get(rec, IdKey).s
    ensures !Truthy(Get(rec, IdKey)) ==> id == fallbackId
  {
    var v := Get(rec, IdKey);
    if v.Str? && Truthy(v) then v.s else fallbackId
  }

  /** The pin built from a record with valid coordinates: longitude first, the record passed through. */
  function MakePin(rec: Json, fallbackId: string, parseText: string -> Option<real>): (p: Pin)
    requires HasValidCoords(rec, parseText)
    ensures p.coordinates.lng == ParseFloat(Longitude(rec), parseText).value
    ensures p.coordinates.lat == ParseFloat(Latitude(rec), parseText).value
    ensures p.data == rec
    ensures p.id == PinId(rec, fallbackId)
  {
    Pin(PinId(rec, fallbackId),
        Coord(ParseFloat(Longitude(rec), parseText).value, ParseFloat(Latitude(rec), parseText).value),
        rec)
  }

  /** One record's pin, or None when the record is dropped. */
  function ToPin(rec: Json, fallbackId: string, parseText: string -> Option<real>): Option<Pin> {
    if HasValidCoords(rec, parseText) then Some(MakePin(rec, fallbackId, parseText)) else None
  }

  /** Why the transformation can fail: reading a field of a null record throws. */
  datatype ExtractError = NullRecord(index: nat)

  /** What happens to the record at a given index. */
  type RecordStep = (Json, nat) -> Option<Pin>

  /** `records.map(step).filter(pin => pin !== null)`, throwing at a null record. */
  function MapFilter(records: seq<Json>, step: RecordStep): (r: Result<seq<Pin>, ExtractError>)
    ensures r.Success? ==> |r.value| <= |records|
  {
    if records == [] then Success([])
    else
      var n := |records| - 1;
      match MapFilter(records[..n], step)
      case Failure(e) => Failure(e)
      case Success(pins) =>
        if records[n] == Null then Failure(NullRecord(n))
        else if step(records[n], n).Some? then Success(pins + [step(records[n], n).value])
        else Success(pins)
  }

  /** The indices of the records that keep a pin, in increasing order. */
  function KeptIndices(records: seq<Json>, step: RecordStep): seq<nat> {
    if records == [] then []
    else
      var n := |records| - 1;
      KeptIndices(records[..n], step) + (if step(records[n], n).Some? then [n] else [])
  }

  /** The number of records dropped. */
  function DroppedCount(records: seq<Json>, step: RecordStep): nat {
    if records == [] then 0
    else
      var n := |records| - 1;
      DroppedCount(records[..n], step) + (if step(records[n], n).Some? then 0 else 1)
  }

  /** The kept indices are in range and strictly increasing. */
  lemma {:induction false} KeptIndicesIncrease(records: seq<Json>, step: RecordStep)
    ensures IncreasingBelow(KeptIndices(records, step), |records|)
  {
    if records != [] {
      var n := |records| - 1;
      var prefix := records[..n];
      KeptIndicesIncrease(prefix, step);
      var ks' := KeptIndices(prefix, step);
      if step(records[n], n).Some? {
        AppendAbove(ks', n, n);
      } else {
        RaiseBound(ks', n, |records|);
      }
    }
  }

  /** An index is kept exactly when the step yields a pin for its record, and the kept and dropped counts add up. */
  lemma {:induction false} KeptIndicesExact(records: seq<Json>, step: RecordStep)
    ensures var ks := KeptIndices(records, step);
      && |ks| == |records| - DroppedCount(records, step)
      && (forall i :: 0 <= i < |records| ==> (i in ks <==> step(records[i], i).Some?))
  {
    if records != [] {
      var n := |records| - 1;
      var prefix := records[..n];
      KeptIndicesExact(prefix, step);
      KeptIndicesIncrease(prefix, step);
      var ks' := KeptIndices(prefix, step);
      forall i | 0 <= i < |records| ensures i in KeptIndices(records, step) <==> step(records[i], i).Some? {
        if i < n {
          assert records[i] == prefix[i];
        } else {
          assert n !in ks';
        }
      }
    }
  }

  /** Without a null record the pass succeeds, and its `k`-th pin is the step's pin for the `k`-th kept record. */
  lemma {:induction false} MapFilterPins(records: seq<Json>, step: RecordStep)
    requires forall i :: 0 <= i < |records| ==> records[i] != Null
    ensures var r := MapFilter(records, step);
      var ks := KeptIndices(records, step);
      && r.Success? && |r.value| == |ks|
      && (forall k :: 0 <= k < |ks| ==>
            ks[k] < |records| && step(records[ks[k]], ks[k]).Some? && r.value[k] == step(records[ks[k]], ks[k]).value)
  {
    KeptIndicesIncrease(records, step);
    if records != [] {
      var n := |records| - 1;
      var prefix := records[..n];
      MapFilterPins(prefix, step);
      var ks' := KeptIndices(prefix, step);
      var ks := KeptIndices(records, step);
      var r := MapFilter(records, step).value;
      var r' := MapFilter(prefix, step).value;
      KeptIndicesIncrease(prefix, step);
      assert records[n] == records[|records| - 1];
      forall k | 0 <= k < |ks|
        ensures step(records[ks[k]], ks[k]).Some? && r[k] == step(records[ks[k]], ks[k]).value
      {
        if k < |ks'| {
          assert ks[k] == ks'[k] && r[k] == r'[k] && records[ks[k]] == prefix[ks[k]];
        } else {
          assert ks[k] == n && r == r' + [step(records[n], n).value];
        }
      }
    }
  }

  /**
   * Without a null record the pass succeeds and keeps, in input order, exactly the
   * records the step turns into a pin, each as that pin.
   */
  lemma MapFilterKeepsInOrder(records: seq<Json>, step: RecordStep)
    requires forall i :: 0 <= i < |records| ==> records[i] != Null
    ensures var r := MapFilter(records, step);
      var ks := KeptIndices(records, step);
      && r.Success?
      && |r.value| == |ks| == |records| - DroppedCount(records, step)
      && (forall a, b :: 0 <= a < b < |ks| ==> ks[a] < ks[b])
      && (forall i :: 0 <= i < |records| ==> (i in ks <==> step(records[i], i).Some?))
      && (forall k :: 0 <= k < |ks| ==>
            ks[k] < |records| && step(records[ks[k]], ks[k]).Some? && r.value[k] == step(records[ks[k]], ks[k]).value)
  {
    KeptIndicesIncrease(records, step);
    KeptIndicesExact(records, step);
    MapFilterPins(records, step);
  }

  lemma {:induction false} MapFilterThrowsOnFirstNull(records: seq<Json>, step: RecordStep, i: nat)
    requires i < |records| && records[i] == Null
    requires forall j :: 0 <= j < i ==> records[j] != Null
    ensures MapFilter(records, step) == Failure(NullRecord(i))
  {
    var n := |records| - 1;
    var prefix := records[..n];
    if i < n {
      MapFilterThrowsOnFirstNull(prefix, step, i);
    } else {
      MapFilterKeepsInOrder(prefix, step);
    }
  }

  /** The step the source applies to the record at index `i`. */
  function PersonStep(randomId: nat -> string, parseText: string -> Option<real>): RecordStep {
    (rec: Json, i: nat) => ToPin(rec, randomId(i), parseText)
  }

  /**
   * `people.map(...).filter(pin => pin !== null)`. `randomId(i)` stands for the
   * `person-${Math.random()}` id the source would draw for the record at index `i`.
   */
  function ExtractPins(people: seq<Json>, randomId: nat -> string, parseText: string -> Option<real>): Result<seq<Pin>, ExtractError> {
    MapFilter(people, PersonStep(randomId, parseText))
  }

  /**
   * Without null records the transformation succeeds and keeps, in input order, exactly
   * the records with valid coordinates, each as the pin built from it; all the others are dropped.
   */
  lemma ExtractionKeepsValidRecordsInOrder(people: seq<Json>, randomId: nat -> string, parseText: string -> Option<real>)
    requires forall i :: 0 <= i < |people| ==> people[i] != Null
    ensures var r := ExtractPins(people, randomId, parseText);
      var ks := KeptIndices(people, PersonStep(randomId, parseText));
      && r.Success?
      && |r.value| == |ks| == |people| - DroppedCount(people, PersonStep(randomId, parseText))
      && (forall a, b :: 0 <= a < b < |ks| ==> ks[a] < ks[b])
      && (forall i :: 0 <= i < |people| ==> (i in ks <==> HasValidCoords(people[i], parseText)))
      && (forall k :: 0 <= k < |ks| ==>
            ks[k] < |people| && HasValidCoords(people[ks[k]], parseText)
            && r.value[k] == MakePin(people[ks[k]], randomId(ks[k]), parseText))
  {
    MapFilterKeepsInOrder(people, PersonStep(randomId, parseText));
  }

  /** A null record makes the whole transformation throw, at the first null record. */
  lemma ExtractionThrowsOnFirstNull(people: seq<Json>, randomId: nat -> string, parseText: string -> Option<real>, i: nat)
    requires i < |people| && people[i] == Null
    requires forall j :: 0 <= j < i ==> people[j] != Null
    ensures ExtractPins(people, randomId, parseText) == Failure(NullRecord(i))
  {
    MapFilterThrowsOnFirstNull(people, PersonStep(randomId, parseText), i);
  }

  /** When field `i` is the first truthy one, the probe answers with it. */
  lemma FirstTruthyField(rec: Json, keys: seq<string>, nestedKeys: seq<string>, i: nat)
    requires i < |keys| && |nestedKeys| > 0
    requires Truthy(Get(rec, keys[i])) && forall j :: 0 <= j < i ==> !Truthy(Get(rec, keys[j]))
    ensures Coordinate(rec, keys, nestedKeys) == Get(rec, keys[i])
  {
  }

  /** When no field is truthy and there is no nested object, the probe answers with the last field. */
  lemma NoTruthyField(rec: Json, keys: seq<string>, nestedKeys: seq<string>)
    requires |keys| > 0 && |nestedKeys| > 0
    requires forall j :: 0 <= j < |keys| ==> !Truthy(Get(rec, keys[j]))
    requires !Truthy(Get(rec, NestedKey))
    ensures Coordinate(rec, keys, nestedKeys) == Get(rec, keys[|keys| - 1])
  {
  }

  /** Property access on a two-property object. */
  lemma GetOfPair(k1: string, v1: Json, k2: string, v2: Json, k: string)
    ensures Get(Obj([(k1, v1), (k2, v2)]), k) == (if k == k1 then v1 else if k == k2 then v2 else Null)
  {
    var fs := [(k1, v1), (k2, v2)];
    assert fs[1..] == [(k2, v2)];
    assert [(k2, v2)][1..] == [];
    assert Lookup([(k2, v2)], k) == if k == k2 then v2 else Lookup([], k);
  }

  /** Because of `||`, a latitude of 0 in an early field reads as missing and the record is dropped. */
  lemma ZeroLatitudeDropped(lng: real, parseText: string -> Option<real>)
    ensures !HasValidCoords(Obj([("Latitude", Num(0.0)), ("Longitude", Num(lng))]), parseText)
  {
    var rec := Obj([("Latitude", Num(0.0)), ("Longitude", Num(lng))]);
    GetOfPair("Latitude", Num(0.0), "Longitude", Num(lng), NestedKey);
    forall j | 0 <= j < |LatitudeKeys| ensures !Truthy(Get(rec, LatitudeKeys[j])) {
      GetOfPair("Latitude", Num(0.0), "Longitude", Num(lng), LatitudeKeys[j]);
    }
    GetOfPair("Latitude", Num(0.0), "Longitude", Num(lng), LatitudeKeys[5]);
    NoTruthyField(rec, LatitudeKeys, NestedLatitudeKeys);
  }

  /** The same 0 in the last latitude field survives `||` (it is its last operand) and is kept. */
  lemma ZeroInLastLatitudeFieldKept(lng: real, parseText: string -> Option<real>)
    requires lng != 0.0
    ensures var rec := Obj([("Address_Latitude", Num(0.0)), ("Longitude", Num(lng))]);
      HasValidCoords(rec, parseText) && MakePin(rec, "", parseText).coordinates == Coord(lng, 0.0)
  {
    var rec := Obj([("Address_Latitude", Num(0.0)), ("Longitude", Num(lng))]);
    GetOfPair("Address_Latitude", Num(0.0), "Longitude", Num(lng), NestedKey);
    forall j | 0 <= j < |LatitudeKeys| ensures !Truthy(Get(rec, LatitudeKeys[j])) {
      GetOfPair("Address_Latitude", Num(0.0), "Longitude", Num(lng), LatitudeKeys[j]);
    }
    GetOfPair("Address_Latitude", Num(0.0), "Longitude", Num(lng), LatitudeKeys[5]);
    NoTruthyField(rec, LatitudeKeys, NestedLatitudeKeys);
    GetOfPair("Address_Latitude", Num(0.0), "Longitude", Num(lng), LongitudeKeys[0]);
    GetOfPair("Address_Latitude", Num(0.0), "Longitude", Num(lng), LongitudeKeys[1]);
    FirstTruthyField(rec, LongitudeKeys, NestedLongitudeKeys, 1);
  }

  /** A falsy earlier field gives way to the next truthy one. */
  lemma ZeroLatitudeSkipped()
    ensures Latitude(Obj([("Residence_Addresses_Latitude", Num(0.0)), ("Latitude", Num(40.5))])) == Num(40.5)
  {
    var rec := Obj([("Residence_Addresses_Latitude", Num(0.0)), ("Latitude", Num(40.5))]);
    GetOfPair("Residence_Addresses_Latitude", Num(0.0), "Latitude", Num(40.5), LatitudeKeys[0]);
    GetOfPair("Residence_Addresses_Latitude", Num(0.0), "Latitude", Num(40.5), LatitudeKeys[1]);
    FirstTruthyField(rec, LatitudeKeys, NestedLatitudeKeys, 1);
  }

  /** Clicking a cluster flies to `min(zoom + 2, 18)`. */
  function ClusterClickZoom(zoom: real): (z: real)
    ensures z <= zoom + 2.0 && z <= 18.0
    ensures z == zoom + 2.0 || z == 18.0
  {
    if zoom + 2.0 < 18.0 then zoom + 2.0 else 18.0
  }

  /** Clicking the business pin flies to `max(zoom, 15)`. */
  function BusinessClickZoom(zoom: real): (z: real)
    ensures z >= zoom && z >= 15.0
    ensures z == zoom || z == 15.0
  {
    if zoom > 15.0 then zoom else 15.0
  }
}
