// Reference definition of the day clustering in RouteOptimizer.cluster_places
// (services/route_optimizer.py): deterministic k-means over place coordinates
// with a fixed number of rounds, and the facts that make it a partition.
module KMeans {
  import opened Common

  /** The straight-line distance between two coordinate pairs (haversine, km).
      Left uninterpreted: nothing is assumed about it. */
  type Haversine = (real, real, real, real) -> real

  type Centroid = (real, real)

  /** Number of relocation rounds the source runs (`for _ in range(10)`). */
  const Rounds: nat := 10

  function DistanceTo(h: Haversine, p: Place, c: Centroid): real {
    h(p.lat, p.lon, c.0, c.1)
  }

  function Distances(h: Haversine, p: Place, cs: seq<Centroid>): (r: seq<real>)
    ensures |r| == |cs|
  {
    seq(|cs|, i requires 0 <= i < |cs| => DistanceTo(h, p, cs[i]))
  }

  /** Index of the centroid a place is assigned to: the first nearest one
      (`NearestIsFirstNearest`), and 0, the loop's start, without centroids. */
  function Nearest(h: Haversine, p: Place, cs: seq<Centroid>): (r: nat)
    ensures 0 < |cs| ==> r < |cs|
    ensures |cs| == 0 ==> r == 0
  {
    FirstMin(Distances(h, p, cs))
  }

  /** A place goes to a nearest centroid, and to the lowest-indexed one among
      equally near centroids. */
  lemma NearestIsFirstNearest(h: Haversine, p: Place, cs: seq<Centroid>)
    requires 0 < |cs|
    ensures Nearest(h, p, cs) < |cs|
    ensures forall j :: 0 <= j < |cs| ==>
      DistanceTo(h, p, cs[Nearest(h, p, cs)]) <= DistanceTo(h, p, cs[j])
    ensures forall j :: 0 <= j < Nearest(h, p, cs) ==>
      DistanceTo(h, p, cs[Nearest(h, p, cs)]) < DistanceTo(h, p, cs[j])
  {
    var ds := Distances(h, p, cs);
    FirstMinIsFirstMinimal(ds);
    forall j | 0 <= j < |cs|
      ensures DistanceTo(h, p, cs[Nearest(h, p, cs)]) <= DistanceTo(h, p, cs[j])
    {
      assert ds[Nearest(h, p, cs)] <= ds[j];
    }
    forall j | 0 <= j < Nearest(h, p, cs)
      ensures DistanceTo(h, p, cs[Nearest(h, p, cs)]) < DistanceTo(h, p, cs[j])
    {
      assert ds[Nearest(h, p, cs)] < ds[j];
    }
  }

  /** The places of `ps`, in their order, whose nearest centroid is `c`. */
  function Members(h: Haversine, ps: seq<Place>, cs: seq<Centroid>, c: nat): seq<Place> {
    if ps == [] then []
    else
      Members(h, ps[..|ps| - 1], cs, c) +
      (if Nearest(h, ps[|ps| - 1], cs) == c then [ps[|ps| - 1]] else [])
  }

  /** The k lists one assignment round builds (`new_clusters`). */
  function Groups(h: Haversine, ps: seq<Place>, cs: seq<Centroid>, k: nat): (r: seq<seq<Place>>)
    ensures |r| == k
    ensures forall c :: 0 <= c < k ==> r[c] == Members(h, ps, cs, c)
  {
    if k == 0 then [] else Groups(h, ps, cs, k - 1) + [Members(h, ps, cs, k - 1)]
  }

  function SumLat(ps: seq<Place>): real {
    if ps == [] then 0.0 else SumLat(ps[..|ps| - 1]) + ps[|ps| - 1].lat
  }

  function SumLon(ps: seq<Place>): real {
    if ps == [] then 0.0 else SumLon(ps[..|ps| - 1]) + ps[|ps| - 1].lon
  }

  /** New centroid of one cluster: the mean of its members, or the previous
      centroid when the cluster is empty. */
  function Relocate(members: seq<Place>, previous: Centroid): (r: Centroid)
    ensures members == [] ==> r == previous
    ensures members != [] ==>
      r.0 * |members| as real == SumLat(members) && r.1 * |members| as real == SumLon(members)
  {
    if members == [] then previous
    else (SumLat(members) / |members| as real, SumLon(members) / |members| as real)
  }

  function Update(h: Haversine, ps: seq<Place>, cs: seq<Centroid>): (r: seq<Centroid>)
    ensures |r| == |cs|
    ensures forall c :: 0 <= c < |cs| ==> r[c] == Relocate(Members(h, ps, cs, c), cs[c])
  {
    RelocatedUpTo(h, ps, cs, |cs|)
  }

  /** The first n relocated centroids. */
  function RelocatedUpTo(h: Haversine, ps: seq<Place>, cs: seq<Centroid>, n: nat): (r: seq<Centroid>)
    requires n <= |cs|
    ensures |r| == n
    ensures forall c :: 0 <= c < n ==> r[c] == Relocate(Members(h, ps, cs, c), cs[c])
  {
    if n == 0 then [] else RelocatedUpTo(h, ps, cs, n - 1) + [Relocate(Members(h, ps, cs, n - 1), cs[n - 1])]
  }

  /** Relocating each group of an assignment round is the centroid update. */
  lemma UpdateFromGroups(h: Haversine, ps: seq<Place>, cs: seq<Centroid>, groups: seq<seq<Place>>, next: seq<Centroid>)
    requires groups == Groups(h, ps, cs, |cs|) && |next| == |cs|
    requires forall c :: 0 <= c < |cs| ==> next[c] == Relocate(groups[c], cs[c])
    ensures next == Update(h, ps, cs)
  {
  }

  /** Initial centroids: the coordinates of the first k places. */
  function Initial(ps: seq<Place>, k: nat): (r: seq<Centroid>)
    requires k <= |ps|
    ensures |r| == k
    ensures forall i :: 0 <= i < k ==> r[i] == (ps[i].lat, ps[i].lon)
  {
    if k == 0 then [] else Initial(ps, k - 1) + [(ps[k - 1].lat, ps[k - 1].lon)]
  }

  /** Centroids after n relocation rounds. */
  function CentroidsAfter(h: Haversine, ps: seq<Place>, k: nat, n: nat): (r: seq<Centroid>)
    requires k <= |ps|
    ensures |r| == k
  {
    if n == 0 then Initial(ps, k) else Update(h, ps, CentroidsAfter(h, ps, k, n - 1))
  }

  /** `[[p] for p in ps]`: every place in a cluster of its own. */
  function Singletons(ps: seq<Place>): (r: seq<seq<Place>>)
    ensures |r| == |ps|
    ensures forall i :: 0 <= i < |ps| ==> r[i] == [ps[i]]
  {
    if ps == [] then [] else Singletons(ps[..|ps| - 1]) + [[ps[|ps| - 1]]]
  }

  /** What `cluster_places(places, k)` returns. */
  function Clusters(h: Haversine, ps: seq<Place>, k: int): (r: seq<seq<Place>>)
    ensures ps == [] || k <= 0 ==> r == []
    ensures 0 < k && 0 < |ps| <= k ==> |r| == |ps|
    ensures 0 < k < |ps| ==> |r| == k
  {
    if ps == [] || k <= 0 then []
    else if |ps| <= k then Singletons(ps)
    else Groups(h, ps, CentroidsAfter(h, ps, k, Rounds - 1), k)
  }

  // ---------------------------------------------------------------------
  // Partition facts

  function Bump(groups: seq<seq<Place>>, c: nat, p: Place): (r: seq<seq<Place>>)
    requires c < |groups|
    ensures |r| == |groups|
  {
    groups[c := groups[c] + [p]]
  }

  /** Appending a place to one list adds exactly that place to the whole. */
  lemma {:induction false} ConcatBump(groups: seq<seq<Place>>, c: nat, p: Place)
    requires c < |groups|
    ensures multiset(Concat(Bump(groups, c, p))) == multiset(Concat(groups)) + multiset{p}
    decreases |groups|
  {
    var n := |groups|;
    var b := Bump(groups, c, p);
    if c == n - 1 {
      assert b[..n - 1] == groups[..n - 1];
    } else {
      assert b[..n - 1] == Bump(groups[..n - 1], c, p);
      ConcatBump(groups[..n - 1], c, p);
    }
  }

  /** Extending the places by one extends exactly one group by that place. */
  lemma GroupsSnoc(h: Haversine, ps: seq<Place>, p: Place, cs: seq<Centroid>, k: nat)
    requires 0 < |cs| && |cs| <= k
    ensures Nearest(h, p, cs) < k
    ensures Groups(h, ps + [p], cs, k) == Bump(Groups(h, ps, cs, k), Nearest(h, p, cs), p)
  {
    NearestIsFirstNearest(h, p, cs);
    var qs := ps + [p];
    assert qs[..|qs| - 1] == ps;
    var lhs, rhs := Groups(h, qs, cs, k), Bump(Groups(h, ps, cs, k), Nearest(h, p, cs), p);
    forall c | 0 <= c < k ensures lhs[c] == rhs[c] {
      assert lhs[c] == Members(h, ps, cs, c) + (if Nearest(h, p, cs) == c then [p] else []);
    }
  }

  /** One assignment round places every place in exactly one of the k lists
      (counting repeated places with their multiplicity). */
  lemma {:induction false} GroupsPartition(h: Haversine, ps: seq<Place>, cs: seq<Centroid>, k: nat)
    requires 0 < |cs| && |cs| <= k
    ensures multiset(Concat(Groups(h, ps, cs, k))) == multiset(ps)
    decreases |ps|
  {
    if ps == [] {
      var g := Groups(h, ps, cs, k);
      assert forall c :: 0 <= c < k ==> g[c] == [];
      ConcatOfEmpties(g);
    } else {
      var init, p := ps[..|ps| - 1], ps[|ps| - 1];
      assert ps == init + [p];
      GroupsPartition(h, init, cs, k);
      GroupsSnoc(h, init, p, cs, k);
      ConcatBump(Groups(h, init, cs, k), Nearest(h, p, cs), p);
    }
  }

  lemma {:induction false} ConcatOfEmpties(g: seq<seq<Place>>)
    requires forall c :: 0 <= c < |g| ==> g[c] == []
    ensures Concat(g) == []
    decreases |g|
  {
    if g != [] {
      ConcatOfEmpties(g[..|g| - 1]);
    }
  }

  lemma {:induction false} ConcatSingletons(ps: seq<Place>)
    ensures Concat(Singletons(ps)) == ps
    decreases |ps|
  {
    if ps != [] {
      var s := Singletons(ps);
      var init := ps[..|ps| - 1];
      assert s[..|s| - 1] == Singletons(init);
      ConcatSingletons(init);
      assert ps == init + [ps[|ps| - 1]];
    }
  }

  /** The clusters partition the places: together they hold each place as
      often as the input does. */
  lemma ClustersPartition(h: Haversine, ps: seq<Place>, k: int)
    requires 0 < k
    ensures multiset(Concat(Clusters(h, ps, k))) == multiset(ps)
  {
    if ps == [] {
    } else if |ps| <= k {
      ConcatSingletons(ps);
    } else {
      GroupsPartition(h, ps, CentroidsAfter(h, ps, k, Rounds - 1), k);
    }
  }

  /** Each group keeps the input order of its places. */
  lemma {:induction false} MembersInOrder(h: Haversine, ps: seq<Place>, cs: seq<Centroid>, c: nat)
    ensures IsSubsequence(Members(h, ps, cs, c), ps)
    decreases |ps|
  {
    if ps != [] {
      var init := ps[..|ps| - 1];
      MembersInOrder(h, init, cs, c);
      var m := Members(h, ps, cs, c);
      if Nearest(h, ps[|ps| - 1], cs) == c {
        assert m[..|m| - 1] == Members(h, init, cs, c);
      } else {
        assert m == Members(h, init, cs, c);
        if m != [] {
          assert IsSubsequence(m, init);
        }
      }
    }
  }

  /** A place of the input is in cluster c exactly when its nearest final
      centroid is c, and each cluster lists its places in input order. */
  lemma ClustersByNearest(h: Haversine, ps: seq<Place>, k: int, c: nat)
    requires 0 < k < |ps| && c < k
    ensures Clusters(h, ps, k)[c] == Members(h, ps, CentroidsAfter(h, ps, k, Rounds - 1), c)
    ensures IsSubsequence(Clusters(h, ps, k)[c], ps)
    ensures forall p :: p in ps ==>
      (p in Clusters(h, ps, k)[c] <==> Nearest(h, p, CentroidsAfter(h, ps, k, Rounds - 1)) == c)
  {
    var cs := CentroidsAfter(h, ps, k, Rounds - 1);
    MembersInOrder(h, ps, cs, c);
    forall p | p in ps
      ensures p in Members(h, ps, cs, c) <==> Nearest(h, p, cs) == c
    {
      MembersHas(h, ps, cs, c, p);
    }
  }

  lemma {:induction false} MembersHas(h: Haversine, ps: seq<Place>, cs: seq<Centroid>, c: nat, p: Place)
    ensures p in Members(h, ps, cs, c) <==> p in ps && Nearest(h, p, cs) == c
    decreases |ps|
  {
    if ps != [] {
      var init := ps[..|ps| - 1];
      MembersHas(h, init, cs, c, p);
      assert ps == init + [ps[|ps| - 1]];
    }
   }
}
