/**
 * Greedy, order-driven clustering of person pins (src/utils/pinClustering.ts).
 *
 * The haversine distance is floating-point trigonometry; here it is a parameter
 * `dist`, so every fact below holds for whatever distance function the caller uses.
 * Coordinates and the centroid are `real`s; rounding is not modelled.
 */
module PinClustering {
  import opened JsonValue
  import opened Geo

  /** A distance in metres between two coordinates. */
  type Distance = (Coord, Coord) -> real

  /** What `clusterPins` returns: a bare pin or a cluster of pins. */
  datatype MapItem =
    | Single(pin: Pin)
    | Cluster(id: string, coordinates: Coord, pins: seq<Pin>, count: int)

  /** Above this zoom level pins are never clustered. */
  const DetailZoom: real := 14.0
  /** Below this zoom level the radius is scaled up. */
  const LowZoom: real := 10.0
  const LowZoomFactor: real := 3.0

  /** The property names an item carries at run time. */
  function FieldNames(item: MapItem): set<string> {
    match item
    case Single(_) => {"id", "coordinates", "data"}
    case Cluster(_, _, _, _) => {"id", "coordinates", "pins", "count"}
  }

  /** `isCluster`: the item has both a `count` and a `pins` property. */
  function IsCluster(item: MapItem): (b: bool)
    ensures b <==> item.Cluster?
  {
    "count" in FieldNames(item) && "pins" in FieldNames(item)
  }

  /** The radius actually used: tripled at very low zoom. */
  function EffectiveRadius(zoom: real, clusterRadiusMeters: real): (r: real)
    ensures zoom < 10.0 ==> r == 3.0 * clusterRadiusMeters
    ensures zoom >= 10.0 ==> r == clusterRadiusMeters
  {
    if zoom < LowZoom then clusterRadiusMeters * LowZoomFactor else clusterRadiusMeters
  }

  /** The set of ids of some pins. */
  function Ids(ps: seq<Pin>): set<string> {
    set p | p in ps :: p.id
  }

  /** No two pins of `ps` share an id. */
  predicate DistinctIds(ps: seq<Pin>) {
    forall i, j :: 0 <= i < j < |ps| ==> ps[i].id != ps[j].id
  }

  /** Dropping the head of a list of distinct pins keeps it distinct, and no later pin shares the head's id. */
  lemma DistinctTail(ps: seq<Pin>)
    requires |ps| > 0 && DistinctIds(ps)
    ensures DistinctIds(ps[1..])
    ensures forall p :: p in ps[1..] ==> p.id != ps[0].id
  {
    var rest := ps[1..];
    forall i, j | 0 <= i < j < |rest| ensures rest[i].id != rest[j].id {
      assert rest[i] == ps[i + 1] && rest[j] == ps[j + 1];
    }
    forall p | p in rest ensures p.id != ps[0].id {
      var k :| 0 <= k < |rest| && rest[k] == p;
      assert ps[k + 1] == p;
    }
  }

  /** Putting a pin with a fresh id in front of distinct pins keeps them distinct. */
  lemma DistinctCons(x: Pin, rest: seq<Pin>)
    requires DistinctIds(rest)
    requires forall p :: p in rest ==> p.id != x.id
    ensures DistinctIds([x] + rest)
  {
    var ps := [x] + rest;
    forall i, j | 0 <= i < j < |ps| ensures ps[i].id != ps[j].id {
      assert ps[j] == rest[j - 1];
      if i > 0 {
        assert ps[i] == rest[i - 1];
      }
    }
  }

  /** The test inside `pins.filter(...)`: `other` is not processed, is not the seed, and is strictly within the radius. */
  predicate IsNeighbour(seed: Pin, other: Pin, processed: set<string>, radius: real, dist: Distance) {
    other.id !in processed && other.id != seed.id && dist(seed.coordinates, other.coordinates) < radius
  }

  /** `nearbyPins`: the pins of the whole list that are neighbours of `seed`, in list order. */
  function Neighbours(pins: seq<Pin>, seed: Pin, processed: set<string>, radius: real, dist: Distance): (r: seq<Pin>)
    ensures |r| <= |pins|
    ensures forall p :: p in r <==> p in pins && IsNeighbour(seed, p, processed, radius, dist)
    ensures DistinctIds(pins) ==> DistinctIds(r)
  {
    if pins == [] then []
    else
      var rest := Neighbours(pins[1..], seed, processed, radius, dist);
      assert forall p :: p in pins[1..] ==> p in pins;
      assert DistinctIds(pins) ==> DistinctIds(rest) && forall p :: p in rest ==> p.id != pins[0].id by {
        if DistinctIds(pins) {
          DistinctTail(pins);
        }
      }
      if IsNeighbour(seed, pins[0], processed, radius, dist) then
        assert DistinctIds(pins) ==> DistinctIds([pins[0]] + rest) by {
          if DistinctIds(pins) {
            DistinctCons(pins[0], rest);
          }
        }
        [pins[0]] + rest
      else rest
  }

  /** Which coordinate a sum is taken over. */
  datatype Axis = Lng | Lat

  function Component(c: Coord, axis: Axis): real {
    match axis
    case Lng => c.lng
    case Lat => c.lat
  }

  /** `ps.reduce((sum, p) => sum + p.coordinates[axis], 0)`, a left fold. */
  function SumOf(ps: seq<Pin>, axis: Axis): real {
    if ps == [] then 0.0 else SumOf(ps[..|ps| - 1], axis) + Component(ps[|ps| - 1].coordinates, axis)
  }

  /** The arithmetic mean of the members' longitudes and latitudes. */
  function Centroid(ps: seq<Pin>): Coord
    requires |ps| > 0
  {
    Coord(SumOf(ps, Lng) / (|ps| as real), SumOf(ps, Lat) / (|ps| as real))
  }

  /** The cluster built from a seed followed by its neighbours. */
  function MakeCluster(group: seq<Pin>): MapItem
    requires |group| > 0
  {
    Cluster("cluster-" + group[0].id, Centroid(group), group, |group|)
  }

  /** The pins an item stands for. */
  function ItemPins(item: MapItem): seq<Pin> {
    match item
    case Single(p) => [p]
    case Cluster(_, _, ps, _) => ps
  }

  /** All pins the items of a list stand for, in list order. */
  function Members(items: seq<MapItem>): seq<Pin> {
    if items == [] then [] else Members(items[..|items| - 1]) + ItemPins(items[|items| - 1])
  }

  /** The state of the `forEach` pass: the clusters pushed so far and the `processed` set. */
  datatype PassState = PassState(clusters: seq<MapItem>, processed: set<string>)

  /**
   * `pin` heads a new cluster: it is not yet processed and has at least one neighbour.
   */
  predicate IsSeed(pins: seq<Pin>, radius: real, dist: Distance, st: PassState, pin: Pin) {
    pin.id !in st.processed && |Neighbours(pins, pin, st.processed, radius, dist)| > 0
  }

  /**
   * One iteration of the `forEach` body for `pin`. `markLone` says whether a pin
   * without neighbours is added to `processed` (the source does so).
   */
  function Visit(pins: seq<Pin>, radius: real, dist: Distance, markLone: bool, st: PassState, pin: Pin): (r: PassState)
    ensures pin.id in st.processed ==> r == st
    ensures st.processed <= r.processed
    ensures markLone ==> pin.id in r.processed
    ensures |st.clusters| <= |r.clusters| <= |st.clusters| + 1
  {
    if pin.id in st.processed then st
    else
      var near := Neighbours(pins, pin, st.processed, radius, dist);
      if |near| > 0 then
        var group := [pin] + near;
        PassState(st.clusters + [MakeCluster(group)], st.processed + Ids(group))
      else if markLone then PassState(st.clusters, st.processed + {pin.id})
      else st
  }

  /** The three ways one iteration can go: a new cluster, a lone pin, or a pin already processed. */
  lemma VisitCases(pins: seq<Pin>, radius: real, dist: Distance, markLone: bool, st: PassState, pin: Pin)
    ensures IsSeed(pins, radius, dist, st, pin) ==>
      var group := [pin] + Neighbours(pins, pin, st.processed, radius, dist);
      Visit(pins, radius, dist, markLone, st, pin) == PassState(st.clusters + [MakeCluster(group)], st.processed + Ids(group))
    ensures !IsSeed(pins, radius, dist, st, pin) && pin.id !in st.processed && markLone ==>
      Visit(pins, radius, dist, markLone, st, pin) == PassState(st.clusters, st.processed + {pin.id})
    ensures !IsSeed(pins, radius, dist, st, pin) && (pin.id in st.processed || !markLone) ==>
      Visit(pins, radius, dist, markLone, st, pin) == st
  {
  }

  /** The state after the first `k` iterations of the pass. */
  function Pass(pins: seq<Pin>, radius: real, dist: Distance, markLone: bool, k: nat): (r: PassState)
    requires k <= |pins|
  {
    if k == 0 then PassState([], {})
    else Visit(pins, radius, dist, markLone, Pass(pins, radius, dist, markLone, k - 1), pins[k - 1])
  }

  /** The `k`-th iteration visits the `k`-th pin. */
  lemma PassUnfold(pins: seq<Pin>, radius: real, dist: Distance, markLone: bool, k: nat)
    requires 0 < k <= |pins|
    ensures Pass(pins, radius, dist, markLone, k) == Visit(pins, radius, dist, markLone, Pass(pins, radius, dist, markLone, k - 1), pins[k - 1])
  {
  }

  /** `pins.filter((p) => !processed.has(p.id))`. */
  function Unclustered(pins: seq<Pin>, processed: set<string>): (r: seq<Pin>)
    ensures forall p :: p in r <==> p in pins && p.id !in processed
    ensures DistinctIds(pins) ==> DistinctIds(r)
  {
    if pins == [] then []
    else
      var rest := Unclustered(pins[1..], processed);
      assert forall p :: p in pins[1..] ==> p in pins;
      assert DistinctIds(pins) ==> DistinctIds(rest) && forall p :: p in rest ==> p.id != pins[0].id by {
        if DistinctIds(pins) {
          DistinctTail(pins);
        }
      }
      if pins[0].id !in processed then
        assert DistinctIds(pins) ==> DistinctIds([pins[0]] + rest) by {
          if DistinctIds(pins) {
            DistinctCons(pins[0], rest);
          }
        }
        [pins[0]] + rest
      else rest
  }

  /** Every pin as a bare item, in order. */
  function Singles(pins: seq<Pin>): (r: seq<MapItem>)
    ensures |r| == |pins|
    ensures forall k :: 0 <= k < |pins| ==> r[k] == Single(pins[k])
  {
    seq(|pins|, k requires 0 <= k < |pins| => Single(pins[k]))
  }

  /** The clustering with the lone-pin policy `markLone`. */
  function Aggregate(pins: seq<Pin>, zoom: real, clusterRadiusMeters: real, dist: Distance, markLone: bool): seq<MapItem> {
    if |pins| == 0 then []
    else if zoom > DetailZoom then Singles(pins)
    else
      var st := Pass(pins, EffectiveRadius(zoom, clusterRadiusMeters), dist, markLone, |pins|);
      st.clusters + Singles(Unclustered(pins, st.processed))
  }

  /** `clusterPins` exactly as written: lone pins are marked processed. */
  function Clustered(pins: seq<Pin>, zoom: real, clusterRadiusMeters: real, dist: Distance): seq<MapItem> {
    Aggregate(pins, zoom, clusterRadiusMeters, dist, true)
  }

  /** `clusterPins` as its final filter evidently intends: lone pins stay unprocessed and come out as singles. */
  function ClusteredFixed(pins: seq<Pin>, zoom: real, clusterRadiusMeters: real, dist: Distance): seq<MapItem> {
    Aggregate(pins, zoom, clusterRadiusMeters, dist, false)
  }

  /** `[seed, ...nearbyPins].forEach((p) => processed.add(p.id))`: every member joins `processed`. */
  method MarkProcessed(processed: set<string>, group: seq<Pin>) returns (r: set<string>)
    ensures r == processed + Ids(group)
  {
    r := processed;
    var j := 0;
    while j < |group|
      invariant 0 <= j <= |group|
      invariant r == processed + Ids(group[..j])
    {
      assert group[..j + 1] == group[..j] + [group[j]];
      r := r + {group[j].id};
      j := j + 1;
    }
    assert group[..|group|] == group;
  }

  /** `clusterPins(pins, zoom, clusterRadiusMeters)`, the imperative pass over the list. */
  method ClusterPins(pins: seq<Pin>, zoom: real, clusterRadiusMeters: real, dist: Distance) returns (items: seq<MapItem>)
    ensures items == Clustered(pins, zoom, clusterRadiusMeters, dist)
  {
    if |pins| == 0 {
      return [];
    }
    if zoom > DetailZoom {
      return Singles(pins);
    }
    var radius := EffectiveRadius(zoom, clusterRadiusMeters);
    var clusters: seq<MapItem> := [];
    var processed: set<string> := {};
    var i := 0;
    while i < |pins|
      invariant 0 <= i <= |pins|
      invariant PassState(clusters, processed) == Pass(pins, radius, dist, true, i)
    {
      var pin := pins[i];
      ghost var st := PassState(clusters, processed);
      assert Pass(pins, radius, dist, true, i + 1) == Visit(pins, radius, dist, true, st, pin);
      if pin.id !in processed {
        var near := Neighbours(pins, pin, processed, radius, dist);
        if |near| > 0 {
          var group := [pin] + near;
          clusters := clusters + [MakeCluster(group)];
          processed := MarkProcessed(processed, group);
        } else {
          processed := processed + {pin.id};
        }
      }
      i := i + 1;
    }
    items := clusters + Singles(Unclustered(pins, processed));
  }
}
