/**
 * What the greedy pass of `clusterPins` guarantees, and the lone-pin defect of its
 * final filter (src/utils/pinClustering.ts:58-91).
 */
module ClusteringFacts {
  import opened JsonValue
  import opened Geo
  import opened PinClustering
  import opened Indices

  /** An empty list gives an empty result at every zoom and radius. */
  lemma EmptyInputEmptyOutput(zoom: real, clusterRadiusMeters: real, dist: Distance, markLone: bool)
    ensures Aggregate([], zoom, clusterRadiusMeters, dist, markLone) == []
  {
  }

  /** Above the detail zoom the pins pass straight through: same pins, same order, no clusters. */
  lemma HighZoomPassesThrough(pins: seq<Pin>, zoom: real, clusterRadiusMeters: real, dist: Distance)
    requires zoom > DetailZoom
    ensures var r := Clustered(pins, zoom, clusterRadiusMeters, dist);
      |r| == |pins| && (forall k :: 0 <= k < |pins| ==> r[k] == Single(pins[k]))
  {
  }

  /** The pins an item stands for, by id. */
  function ItemIds(item: MapItem): set<string> {
    Ids(ItemPins(item))
  }

  /**
   * A cluster as `clusterPins` pushes it: the seed first, at least one neighbour,
   * `count` equal to the number of members, an id derived from the seed, the mean
   * coordinates, and every other member a different pin strictly within the radius of the seed.
   */
  ghost predicate WellFormedCluster(c: MapItem, pins: seq<Pin>, radius: real, dist: Distance) {
    && c.Cluster?
    && |c.pins| >= 2
    && c.count == |c.pins|
    && c.id == "cluster-" + c.pins[0].id
    && c.coordinates == Centroid(c.pins)
    && (forall m :: m in c.pins ==> m in pins)
    && (forall m :: m in c.pins[1..] ==> m.id != c.pins[0].id && dist(c.pins[0].coordinates, m.coordinates) < radius)
  }

  lemma {:induction false} ClustersWellFormed(pins: seq<Pin>, radius: real, dist: Distance, markLone: bool, k: nat)
    requires k <= |pins|
    ensures forall c :: c in Pass(pins, radius, dist, markLone, k).clusters ==> WellFormedCluster(c, pins, radius, dist)
  {
    if k > 0 {
      var n: nat := k - 1;
      ClustersWellFormed(pins, radius, dist, markLone, n);
      VisitKeepsWellFormed(pins, radius, dist, markLone, Pass(pins, radius, dist, markLone, n), pins[n]);
      PassUnfold(pins, radius, dist, markLone, k);
    }
  }

  /** One iteration only ever pushes a well-formed cluster. */
  lemma VisitKeepsWellFormed(pins: seq<Pin>, radius: real, dist: Distance, markLone: bool, st: PassState, pin: Pin)
    requires pin in pins
    requires forall c :: c in st.clusters ==> WellFormedCluster(c, pins, radius, dist)
    ensures forall c :: c in Visit(pins, radius, dist, markLone, st, pin).clusters ==> WellFormedCluster(c, pins, radius, dist)
  {
    VisitCases(pins, radius, dist, markLone, st, pin);
    if IsSeed(pins, radius, dist, st, pin) {
      var near := Neighbours(pins, pin, st.processed, radius, dist);
      var group := [pin] + near;
      assert group[1..] == near;
      assert forall m :: m in group ==> m == pin || m in near;
      assert WellFormedCluster(MakeCluster(group), pins, radius, dist);
      assert forall c :: c in st.clusters + [MakeCluster(group)] ==> c in st.clusters || c == MakeCluster(group);
    }
  }

  /** Every visited pin's id ends up in `processed` (line 83 or line 85). */
  lemma {:induction false} PassMarksEveryVisitedPin(pins: seq<Pin>, radius: real, dist: Distance, k: nat)
    requires k <= |pins|
    ensures forall j :: 0 <= j < k ==> pins[j].id in Pass(pins, radius, dist, true, k).processed
  {
    if k > 0 {
      PassMarksEveryVisitedPin(pins, radius, dist, k - 1);
      var st := Pass(pins, radius, dist, true, k - 1);
      var pin := pins[k - 1];
      if pin.id !in st.processed {
        var near := Neighbours(pins, pin, st.processed, radius, dist);
        assert pin in [pin] + near;
      }
    }
  }

  /** Cluster member ids are processed, and no id belongs to two clusters. */
  ghost predicate DisjointClusters(st: PassState) {
    && (forall i :: 0 <= i < |st.clusters| ==> ItemIds(st.clusters[i]) <= st.processed)
    && (forall i, j :: 0 <= i < j < |st.clusters| ==> ItemIds(st.clusters[i]) !! ItemIds(st.clusters[j]))
  }

  lemma GroupIdsUnprocessed(pin: Pin, near: seq<Pin>, processed: set<string>)
    requires pin.id !in processed
    requires forall p :: p in near ==> p.id !in processed
    ensures Ids([pin] + near) !! processed
  {
    forall x | x in Ids([pin] + near) ensures x !in processed {
      var p :| p in [pin] + near && p.id == x;
      if p != pin {
        assert p in near;
      }
    }
  }

  lemma DisjointClustersStep(cs: seq<MapItem>, processed: set<string>, group: seq<Pin>)
    requires |group| > 0
    requires DisjointClusters(PassState(cs, processed))
    requires Ids(group) !! processed
    ensures DisjointClusters(PassState(cs + [MakeCluster(group)], processed + Ids(group)))
  {
    var c := MakeCluster(group);
    var cs' := cs + [c];
    assert ItemIds(c) == Ids(group);
    forall i | 0 <= i < |cs'| ensures ItemIds(cs'[i]) <= processed + Ids(group) {
      if i < |cs| {
        assert cs'[i] == cs[i];
      } else {
        assert cs'[i] == c;
      }
    }
    forall i, j | 0 <= i < j < |cs'| ensures ItemIds(cs'[i]) !! ItemIds(cs'[j]) {
      assert cs'[i] == cs[i];
      if j < |cs| {
        assert cs'[j] == cs[j];
      } else {
        assert cs'[j] == c;
        assert ItemIds(cs[i]) <= processed;
      }
    }
  }

  lemma {:induction false} ClustersDisjoint(pins: seq<Pin>, radius: real, dist: Distance, markLone: bool, k: nat)
    requires k <= |pins|
    ensures DisjointClusters(Pass(pins, radius, dist, markLone, k))
  {
    if k > 0 {
      var n: nat := k - 1;
      ClustersDisjoint(pins, radius, dist, markLone, n);
      VisitKeepsDisjoint(pins, radius, dist, markLone, Pass(pins, radius, dist, markLone, n), pins[n]);
      PassUnfold(pins, radius, dist, markLone, k);
    }
  }

  /** One iteration keeps the clusters disjoint and their ids processed. */
  lemma VisitKeepsDisjoint(pins: seq<Pin>, radius: real, dist: Distance, markLone: bool, st: PassState, pin: Pin)
    requires DisjointClusters(st)
    ensures DisjointClusters(Visit(pins, radius, dist, markLone, st, pin))
  {
    VisitCases(pins, radius, dist, markLone, st, pin);
    if IsSeed(pins, radius, dist, st, pin) {
      var near := Neighbours(pins, pin, st.processed, radius, dist);
      GroupIdsUnprocessed(pin, near, st.processed);
      DisjointClustersStep(st.clusters, st.processed, [pin] + near);
    } else if pin.id !in st.processed && markLone {
      assert DisjointClusters(PassState(st.clusters, st.processed + {pin.id}));
    }
  }

  lemma {:induction false} UnclusteredEmpty(pins: seq<Pin>, processed: set<string>)
    requires forall p :: p in pins ==> p.id in processed
    ensures Unclustered(pins, processed) == []
  {
    if pins != [] {
      assert pins[0] in pins;
      assert forall p :: p in pins[1..] ==> p in pins;
      UnclusteredEmpty(pins[1..], processed);
    }
  }

  /** The input positions, in increasing order, of the pins that headed a cluster in the first `k` iterations. */
  function SeedIndices(pins: seq<Pin>, radius: real, dist: Distance, markLone: bool, k: nat): seq<nat>
    requires k <= |pins|
  {
    if k == 0 then []
    else
      SeedIndices(pins, radius, dist, markLone, k - 1)
      + (if IsSeed(pins, radius, dist, Pass(pins, radius, dist, markLone, k - 1), pins[k - 1]) then [k - 1] else [])
  }

  lemma {:induction false} SeedIndicesIncrease(pins: seq<Pin>, radius: real, dist: Distance, markLone: bool, k: nat)
    requires k <= |pins|
    ensures IncreasingBelow(SeedIndices(pins, radius, dist, markLone, k), k)
  {
    if k > 0 {
      var n: nat := k - 1;
      SeedIndicesIncrease(pins, radius, dist, markLone, n);
      var s' := SeedIndices(pins, radius, dist, markLone, n);
      if IsSeed(pins, radius, dist, Pass(pins, radius, dist, markLone, n), pins[n]) {
        AppendAbove(s', n, n);
      } else {
        RaiseBound(s', n, k);
      }
    }
  }

  /** The `i`-th cluster is headed by, and named after, the pin at input position `s[i]`. */
  ghost predicate HeadedBy(pins: seq<Pin>, s: seq<nat>, cs: seq<MapItem>) {
    && |s| == |cs|
    && (forall i :: 0 <= i < |s| ==>
          s[i] < |pins| && cs[i].Cluster? && |cs[i].pins| > 0 && cs[i].pins[0] == pins[s[i]]
          && cs[i].id == "cluster-" + pins[s[i]].id)
  }

  lemma HeadedByAppend(pins: seq<Pin>, s: seq<nat>, cs: seq<MapItem>, k: nat, c: MapItem)
    requires HeadedBy(pins, s, cs)
    requires k < |pins| && c.Cluster? && |c.pins| > 0 && c.pins[0] == pins[k] && c.id == "cluster-" + pins[k].id
    ensures HeadedBy(pins, s + [k], cs + [c])
  {
    var s2, cs2 := s + [k], cs + [c];
    forall i | 0 <= i < |s2|
      ensures s2[i] < |pins| && cs2[i].Cluster? && |cs2[i].pins| > 0 && cs2[i].pins[0] == pins[s2[i]]
        && cs2[i].id == "cluster-" + pins[s2[i]].id
    {
      if i < |s| {
        assert s2[i] == s[i] && cs2[i] == cs[i];
      }
    }
  }

  lemma {:induction false} ClustersHeadedBySeeds(pins: seq<Pin>, radius: real, dist: Distance, markLone: bool, k: nat)
    requires k <= |pins|
    ensures HeadedBy(pins, SeedIndices(pins, radius, dist, markLone, k), Pass(pins, radius, dist, markLone, k).clusters)
  {
    if k > 0 {
      ClustersHeadedBySeeds(pins, radius, dist, markLone, k - 1);
      var st := Pass(pins, radius, dist, markLone, k - 1);
      var pin := pins[k - 1];
      var s' := SeedIndices(pins, radius, dist, markLone, k - 1);
      assert Pass(pins, radius, dist, markLone, k) == Visit(pins, radius, dist, markLone, st, pin);
      VisitCases(pins, radius, dist, markLone, st, pin);
      if IsSeed(pins, radius, dist, st, pin) {
        var c := MakeCluster([pin] + Neighbours(pins, pin, st.processed, radius, dist));
        assert SeedIndices(pins, radius, dist, markLone, k) == s' + [k - 1];
        HeadedByAppend(pins, s', st.clusters, k - 1, c);
      } else {
        assert SeedIndices(pins, radius, dist, markLone, k) == s';
      }
    }
  }

  /** Clusters come out in the input order of their seeds, each headed by its seed and named after it. */
  lemma ClustersFollowSeedOrder(pins: seq<Pin>, radius: real, dist: Distance, markLone: bool, k: nat)
    requires k <= |pins|
    ensures var s := SeedIndices(pins, radius, dist, markLone, k);
      var cs := Pass(pins, radius, dist, markLone, k).clusters;
      && |s| == |cs|
      && (forall i, j :: 0 <= i < j < |s| ==> s[i] < s[j])
      && (forall i :: 0 <= i < |s| ==>
            s[i] < k && cs[i].Cluster? && |cs[i].pins| > 0 && cs[i].pins[0] == pins[s[i]]
            && cs[i].id == "cluster-" + pins[s[i]].id)
  {
    SeedIndicesIncrease(pins, radius, dist, markLone, k);
    ClustersHeadedBySeeds(pins, radius, dist, markLone, k);
  }

  /** With the source's policy, zoomed out (zoom <= 14) the result holds clusters only: the final filter is always empty. */
  lemma LonePinsDropped(pins: seq<Pin>, zoom: real, clusterRadiusMeters: real, dist: Distance)
    requires zoom <= DetailZoom
    ensures var r := Clustered(pins, zoom, clusterRadiusMeters, dist);
      (forall item :: item in r ==> item.Cluster?)
      && (|pins| > 0 ==> r == Pass(pins, EffectiveRadius(zoom, clusterRadiusMeters), dist, true, |pins|).clusters)
  {
    if |pins| > 0 {
      var radius := EffectiveRadius(zoom, clusterRadiusMeters);
      var st := Pass(pins, radius, dist, true, |pins|);
      PassMarksEveryVisitedPin(pins, radius, dist, |pins|);
      ClustersWellFormed(pins, radius, dist, true, |pins|);
      var u := Unclustered(pins, st.processed);
      forall p | p in pins ensures p.id in st.processed {
        var j :| 0 <= j < |pins| && pins[j] == p;
      }
      UnclusteredEmpty(pins, st.processed);
      assert Singles(u) == [];
      assert st.clusters + [] == st.clusters;
    }
  }

  /** The defect shown on one pin: zoomed out, a lone pin disappears from the output. */
  lemma SinglePinVanishes(p: Pin, zoom: real, clusterRadiusMeters: real, dist: Distance)
    requires zoom <= DetailZoom
    ensures Clustered([p], zoom, clusterRadiusMeters, dist) == []
  {
    var radius := EffectiveRadius(zoom, clusterRadiusMeters);
    assert Neighbours([p], p, {}, radius, dist) == [];
    assert Pass([p], radius, dist, true, 1) == PassState([], {p.id});
    assert Unclustered([p], {p.id}) == [];
  }

  /** With the corrected policy, a lone pin comes out as a single. */
  lemma SinglePinKept(p: Pin, zoom: real, clusterRadiusMeters: real, dist: Distance)
    ensures ClusteredFixed([p], zoom, clusterRadiusMeters, dist) == [Single(p)]
  {
    var radius := EffectiveRadius(zoom, clusterRadiusMeters);
    assert Neighbours([p], p, {}, radius, dist) == [];
    assert Pass([p], radius, dist, false, 1) == PassState([], {});
    assert Unclustered([p], {}) == [p];
  }

  lemma IdsConcat(a: seq<Pin>, b: seq<Pin>)
    ensures Ids(a + b) == Ids(a) + Ids(b)
  {
    assert forall p :: p in a + b <==> p in a || p in b;
  }

  lemma DistinctConcat(a: seq<Pin>, b: seq<Pin>)
    requires DistinctIds(a) && DistinctIds(b) && Ids(a) !! Ids(b)
    ensures DistinctIds(a + b)
  {
    forall i, j | 0 <= i < j < |a + b| ensures (a + b)[i].id != (a + b)[j].id {
      if i < |a| && j >= |a| {
        assert (a + b)[i] in a && (a + b)[j] in b;
        assert (a + b)[i].id in Ids(a) && (a + b)[j].id in Ids(b);
      }
    }
  }

  lemma FirstIdNotInRest(ps: seq<Pin>)
    requires |ps| > 0 && DistinctIds(ps)
    ensures ps[0].id !in Ids(ps[1..])
  {
  }

  lemma {:induction false} DistinctIdsCard(ps: seq<Pin>)
    requires DistinctIds(ps)
    ensures |Ids(ps)| == |ps|
  {
    if ps != [] {
      var rest := ps[1..];
      DistinctTail(ps);
      DistinctIdsCard(rest);
      FirstIdNotInRest(ps);
      assert ps == [ps[0]] + rest;
      IdsConcat([ps[0]], rest);
      assert Ids([ps[0]]) == {ps[0].id};
    }
  }

  lemma {:induction false} MembersAppend(a: seq<MapItem>, b: seq<MapItem>)
    ensures Members(a + b) == Members(a) + Members(b)
    decreases |b|
  {
    if b == [] {
      assert a + b == a;
    } else {
      var b' := b[..|b| - 1];
      var last := b[|b| - 1];
      var ab := a + b;
      assert ab[..|ab| - 1] == a + b';
      assert ab[|ab| - 1] == last;
      assert Members(ab) == Members(a + b') + ItemPins(last);
      assert Members(b) == Members(b') + ItemPins(last);
      MembersAppend(a, b');
      assert Members(a) + Members(b') + ItemPins(last) == Members(a) + (Members(b') + ItemPins(last));
    }
  }

  lemma {:induction false} MembersOfSingles(ps: seq<Pin>)
    ensures Members(Singles(ps)) == ps
  {
    if ps != [] {
      var ps' := ps[..|ps| - 1];
      MembersOfSingles(ps');
      assert Singles(ps)[..|ps| - 1] == Singles(ps');
    }
  }

  /** The members of the clusters so far are distinct input pins whose ids are exactly `processed`. */
  ghost predicate FixedInvariant(pins: seq<Pin>, st: PassState) {
    var m := Members(st.clusters);
    DistinctIds(m) && Ids(m) == st.processed && (forall p :: p in m ==> p in pins)
  }

  /**
   * With the corrected policy and distinct pin ids, the cluster members so far are
   * distinct input pins and their ids are exactly the processed ids.
   */
  lemma {:induction false} FixedPassInvariant(pins: seq<Pin>, radius: real, dist: Distance, k: nat)
    requires k <= |pins|
    requires DistinctIds(pins)
    ensures FixedInvariant(pins, Pass(pins, radius, dist, false, k))
  {
    if k > 0 {
      var n: nat := k - 1;
      FixedPassInvariant(pins, radius, dist, n);
      FixedVisitKeepsInvariant(pins, radius, dist, Pass(pins, radius, dist, false, n), pins[n]);
      PassUnfold(pins, radius, dist, false, k);
    }
  }

  lemma FixedVisitKeepsInvariant(pins: seq<Pin>, radius: real, dist: Distance, st: PassState, pin: Pin)
    requires DistinctIds(pins) && pin in pins
    requires FixedInvariant(pins, st)
    ensures FixedInvariant(pins, Visit(pins, radius, dist, false, st, pin))
  {
    VisitCases(pins, radius, dist, false, st, pin);
    if IsSeed(pins, radius, dist, st, pin) {
      var near := Neighbours(pins, pin, st.processed, radius, dist);
      var group := [pin] + near;
      var cs := st.clusters + [MakeCluster(group)];
      assert cs[..|cs| - 1] == st.clusters;
      assert Members(cs) == Members(st.clusters) + group;
      GroupStep(pins, Members(st.clusters), st.processed, pin, near);
    }
  }

  /** Appending a seed and its neighbours keeps the members distinct, input pins, and in step with `processed`. */
  lemma GroupStep(pins: seq<Pin>, m: seq<Pin>, processed: set<string>, pin: Pin, near: seq<Pin>)
    requires DistinctIds(m) && Ids(m) == processed && (forall p :: p in m ==> p in pins)
    requires pin in pins && pin.id !in processed
    requires DistinctIds(near)
    requires forall p :: p in near ==> p in pins && p.id !in processed && p.id != pin.id
    ensures var group := [pin] + near;
      DistinctIds(m + group) && Ids(m + group) == processed + Ids(group) && (forall p :: p in m + group ==> p in pins)
  {
    var group := [pin] + near;
    assert Ids([pin]) == {pin.id};
    assert Ids([pin]) !! Ids(near) by {
      forall x | x in Ids(near) ensures x != pin.id {
        var q :| q in near && q.id == x;
      }
    }
    DistinctConcat([pin], near);
    GroupIdsUnprocessed(pin, near, processed);
    DistinctConcat(m, group);
    IdsConcat(m, group);
    assert forall p :: p in m + group ==> p in m || p in group;
  }

  /**
   * The corrected clustering loses and duplicates nothing: with distinct pin ids, the
   * pins of the output items are exactly the input pins, each once.
   */
  lemma FixedKeepsEveryPinOnce(pins: seq<Pin>, zoom: real, clusterRadiusMeters: real, dist: Distance)
    requires DistinctIds(pins)
    ensures var m := Members(ClusteredFixed(pins, zoom, clusterRadiusMeters, dist));
      && DistinctIds(m)
      && |m| == |pins|
      && (forall p :: p in m ==> p in pins)
      && (forall p :: p in pins ==> p in m)
  {
    var m := Members(ClusteredFixed(pins, zoom, clusterRadiusMeters, dist));
    if |pins| == 0 {
    } else if zoom > DetailZoom {
      MembersOfSingles(pins);
    } else {
      FixedMembersCoverIds(pins, EffectiveRadius(zoom, clusterRadiusMeters), dist);
      SameIdsSamePins(m, pins);
    }
  }

  /** After the corrected pass, the output's members are distinct input pins carrying every input id. */
  lemma FixedMembersCoverIds(pins: seq<Pin>, radius: real, dist: Distance)
    requires DistinctIds(pins) && |pins| > 0
    ensures var st := Pass(pins, radius, dist, false, |pins|);
      var m := Members(st.clusters + Singles(Unclustered(pins, st.processed)));
      DistinctIds(m) && Ids(m) == Ids(pins) && (forall p :: p in m ==> p in pins)
  {
    var st := Pass(pins, radius, dist, false, |pins|);
    var mc := Members(st.clusters);
    var u := Unclustered(pins, st.processed);
    var m := Members(st.clusters + Singles(u));
    FixedPassInvariant(pins, radius, dist, |pins|);
    MembersAppend(st.clusters, Singles(u));
    MembersOfSingles(u);
    assert m == mc + u;
    assert Ids(u) !! Ids(mc);
    DistinctConcat(mc, u);
    IdsConcat(mc, u);
    assert Ids(m) == Ids(pins);
    assert forall p :: p in m ==> p in mc || p in u;
  }

  /** Distinct pins drawn from a list of distinct pins, covering all its ids, are all of it. */
  lemma SameIdsSamePins(m: seq<Pin>, pins: seq<Pin>)
    requires DistinctIds(m) && DistinctIds(pins)
    requires Ids(m) == Ids(pins) && (forall p :: p in m ==> p in pins)
    ensures |m| == |pins| && (forall p :: p in pins ==> p in m)
  {
    DistinctIdsCard(m);
    DistinctIdsCard(pins);
    forall p | p in pins ensures p in m {
      assert p.id in Ids(m);
      var q :| q in m && q.id == p.id;
      var i :| 0 <= i < |pins| && pins[i] == p;
      var j :| 0 <= j < |pins| && pins[j] == q;
      assert i == j;
    }
  }

  /** `n * x` as repeated addition, so that the sums below stay linear. */
  function Times(n: nat, x: real): real {
    if n == 0 then 0.0 else Times(n - 1, x) + x
  }

  lemma {:induction false} TimesIsProduct(n: nat, x: real)
    ensures Times(n, x) == (n as real) * x
  {
    if n > 0 {
      TimesIsProduct(n - 1, x);
      assert (n as real) * x == ((n - 1) as real) * x + x;
    }
  }

  lemma {:induction false} SumAtLeast(ps: seq<Pin>, axis: Axis, lo: real)
    requires forall p :: p in ps ==> lo <= Component(p.coordinates, axis)
    ensures Times(|ps|, lo) <= SumOf(ps, axis)
  {
    if ps != [] {
      var ps' := ps[..|ps| - 1];
      assert forall p :: p in ps' ==> p in ps;
      SumAtLeast(ps', axis, lo);
      assert ps[|ps| - 1] in ps;
    }
  }

  lemma {:induction false} SumAtMost(ps: seq<Pin>, axis: Axis, hi: real)
    requires forall p :: p in ps ==> Component(p.coordinates, axis) <= hi
    ensures SumOf(ps, axis) <= Times(|ps|, hi)
  {
    if ps != [] {
      var ps' := ps[..|ps| - 1];
      assert forall p :: p in ps' ==> p in ps;
      SumAtMost(ps', axis, hi);
      assert ps[|ps| - 1] in ps;
    }
  }

  /** The mean of one coordinate lies between any bounds of its members' values. */
  lemma AxisMeanWithin(ps: seq<Pin>, axis: Axis, lo: real, hi: real)
    requires |ps| > 0
    requires forall p :: p in ps ==> lo <= Component(p.coordinates, axis) <= hi
    ensures lo <= SumOf(ps, axis) / (|ps| as real) <= hi
  {
    SumAtLeast(ps, axis, lo);
    SumAtMost(ps, axis, hi);
    TimesIsProduct(|ps|, lo);
    TimesIsProduct(|ps|, hi);
    DivideBounds(SumOf(ps, axis), |ps| as real, lo, hi);
  }

  /** A cluster's centroid lies inside any box that holds all of its members. */
  lemma CentroidWithinMemberBounds(ps: seq<Pin>, lo: Coord, hi: Coord)
    requires |ps| > 0
    requires forall p :: p in ps ==> lo.lng <= p.coordinates.lng <= hi.lng && lo.lat <= p.coordinates.lat <= hi.lat
    ensures lo.lng <= Centroid(ps).lng <= hi.lng
    ensures lo.lat <= Centroid(ps).lat <= hi.lat
  {
    AxisMeanWithin(ps, Lng, lo.lng, hi.lng);
    AxisMeanWithin(ps, Lat, lo.lat, hi.lat);
  }

  lemma DivideBounds(s: real, n: real, lo: real, hi: real)
    requires n > 0.0 && n * lo <= s <= n * hi
    ensures lo <= s / n <= hi
  {
    assert (s / n) * n == s;
  }
}
