// The day-by-day itinerary builder of services/itinerary_service.py: places
// are bucketed by kind, mixed in a fixed rhythm, clustered into days, each day
// ordered from the main hotel, timed from 09:00 and annotated with travel
// options and same-kind alternatives. The functions are the reference
// definitions; class ItineraryService drives the route optimizer and is proved
// against them.
module Itinerary {
  import opened Common
  import KMeans
  import opened Routing
  import opened ClockText

  // ---------------------------------------------------------------------
  // Buckets and the main hotel

  const ActivityKinds: seq<string> := ["activity", "museum", "shopping", "관광지", "문화시설", "레저스포츠"]
  const RestaurantKinds: seq<string> := ["restaurant", "음식점"]
  const CafeKinds: seq<string> := ["cafe"]
  const HotelKinds: seq<string> := ["hotel", "숙박"]

  /** The day clock starts at 09:00. */
  const DayStartMinutes: int := 540
  /** Every stop is given 90 minutes. */
  const StayMinutes: int := 90
  /** At most five alternatives are offered per stop. */
  const MaxAlternatives: nat := 5
  /** Below this straight-line distance an alternative is reached on foot. */
  const WalkingRangeKm: real := 1.5

  /** `[p for p in places if p['type'] in kinds]` */
  function OfKinds(ps: seq<Place>, kinds: seq<string>): (r: seq<Place>)
    ensures |r| <= |ps|
  {
    if ps == [] then []
    else OfKinds(ps[..|ps| - 1], kinds) + (if ps[|ps| - 1].kind in kinds then [ps[|ps| - 1]] else [])
  }

  /** A bucket holds exactly the places of its kinds. */
  lemma {:induction false} OfKindsMembers(ps: seq<Place>, kinds: seq<string>)
    ensures forall p :: p in OfKinds(ps, kinds) <==> p in ps && p.kind in kinds
    decreases |ps|
  {
    if ps != [] {
      var init, last := ps[..|ps| - 1], ps[|ps| - 1];
      OfKindsMembers(init, kinds);
      assert ps == init + [last];
    }
  }

  /** A bucket lists its places in their input order. */
  lemma {:induction false} OfKindsInOrder(ps: seq<Place>, kinds: seq<string>)
    ensures IsSubsequence(OfKinds(ps, kinds), ps)
    decreases |ps|
  {
    if ps != [] {
      var init := ps[..|ps| - 1];
      OfKindsInOrder(init, kinds);
      var r := OfKinds(ps, kinds);
      if ps[|ps| - 1].kind in kinds {
        assert r[..|r| - 1] == OfKinds(init, kinds);
      } else {
        assert r == OfKinds(init, kinds);
        if r != [] {
          assert IsSubsequence(r, init);
        }
      }
    }
  }

  lemma {:induction false} OfKindsAppend(a: seq<Place>, b: seq<Place>, kinds: seq<string>)
    ensures OfKinds(a + b, kinds) == OfKinds(a, kinds) + OfKinds(b, kinds)
    decreases |b|
  {
    if b == [] {
      assert a + b == a;
    } else {
      var init := b[..|b| - 1];
      assert (a + b)[..|a + b| - 1] == a + init;
      OfKindsAppend(a, init, kinds);
      AppendAssoc(OfKinds(a, kinds), OfKinds(init, kinds), if b[|b| - 1].kind in kinds then [b[|b| - 1]] else []);
    }
  }

  lemma OfKindsSingle(p: Place, kinds: seq<string>)
    ensures OfKinds([p], kinds) == if p.kind in kinds then [p] else []
  {
    assert [p][..0] == [];
  }

  /** The first hotel after sorting the hotels by score, highest first (a
      stable sort, so ties keep their input order); None without hotels. */
  function MainHotel(places: seq<Place>): (r: Option<Place>)
    ensures r.None? <==> OfKinds(places, HotelKinds) == []
    ensures r.Some? ==> r.value in OfKinds(places, HotelKinds)
  {
    var hotels := OfKinds(places, HotelKinds);
    if hotels == [] then None else Some(hotels[BestScoredIndex(hotels)])
  }

  /** There is a main hotel exactly when some place is a hotel; it is a hotel
      of the input with the highest score, and the first such hotel. */
  lemma MainHotelIsBest(places: seq<Place>)
    ensures MainHotel(places).Some? <==> exists p :: p in places && p.kind in HotelKinds
    ensures MainHotel(places).Some? ==>
      var h := MainHotel(places).value;
      && h in places && h.kind in HotelKinds
      && (forall p :: p in places && p.kind in HotelKinds ==> ScoreOf(p) <= ScoreOf(h))
      && (forall j :: 0 <= j < BestScored(OfKinds(places, HotelKinds)) ==>
            ScoreOf(OfKinds(places, HotelKinds)[j]) < ScoreOf(h))
  {
    var hotels := OfKinds(places, HotelKinds);
    OfKindsMembers(places, HotelKinds);
    if hotels != [] {
      BestScoredIsFirstHighest(hotels);
      var h := hotels[BestScored(hotels)];
      forall p | p in places && p.kind in HotelKinds ensures ScoreOf(p) <= ScoreOf(h) {
        var j :| 0 <= j < |hotels| && hotels[j] == p;
      }
    } else {
      forall p | p in places ensures p.kind !in HotelKinds {
        assert p !in hotels;
      }
    }
  }

  // ---------------------------------------------------------------------
  // Mixing: activity, restaurant, activity, cafe, restaurant, repeated

  /** `if xs: out.append(xs.pop(0))` */
  function Pop(out: seq<Place>, xs: seq<Place>): (r: (seq<Place>, seq<Place>))
    ensures |r.1| <= |xs| && (xs != [] ==> |r.1| < |xs|)
    ensures out <= r.0 && |r.0| + |r.1| == |out| + |xs|
  {
    if xs == [] then (out, xs) else (out + [xs[0]], xs[1..])
  }

  /** One pass of the loop body: an activity, a restaurant, an activity, a
      cafe, a restaurant, each only while its list has places left. */
  function MixRound(out: seq<Place>, a: seq<Place>, r: seq<Place>, c: seq<Place>)
    : (m: (seq<Place>, seq<Place>, seq<Place>, seq<Place>))
    ensures |m.1| <= |a| && |m.2| <= |r| && |m.3| <= |c|
    ensures a != [] || r != [] || c != [] ==> |m.1| + |m.2| + |m.3| < |a| + |r| + |c|
    ensures out <= m.0 && |m.0| + |m.1| + |m.2| + |m.3| == |out| + |a| + |r| + |c|
  {
    var s1 := Pop(out, a);
    var s2 := Pop(s1.0, r);
    var s3 := Pop(s2.0, s1.1);
    var s4 := Pop(s3.0, c);
    var s5 := Pop(s4.0, s2.1);
    (s5.0, s3.1, s5.1, s4.1)
  }

  /** The `while activities or restaurants or cafes` loop, from the places
      already placed in `out`: it keeps those and appends one place for each
      place left in the three lists. */
  function MixFrom(out: seq<Place>, a: seq<Place>, r: seq<Place>, c: seq<Place>): (mixed: seq<Place>)
    ensures out <= mixed && |mixed| == |out| + |a| + |r| + |c|
    decreases |a| + |r| + |c|
  {
    if a == [] && r == [] && c == [] then out
    else
      var m := MixRound(out, a, r, c);
      MixFrom(m.0, m.1, m.2, m.3)
  }

  /** `xs[i]` as a one-place list, or nothing when `xs` has no place at `i`. */
  function PlaceAt(xs: seq<Place>, i: nat): seq<Place> {
    if i < |xs| then [xs[i]] else []
  }

  /** One pass appends the first activity, the first restaurant, the second
      activity, the first cafe and the second restaurant, skipping any a list
      does not have, and leaves each list without the places it gave. */
  lemma MixRoundPattern(out: seq<Place>, a: seq<Place>, r: seq<Place>, c: seq<Place>)
    ensures MixRound(out, a, r, c).0 == out + PlaceAt(a, 0) + PlaceAt(r, 0) + PlaceAt(a, 1) + PlaceAt(c, 0) + PlaceAt(r, 1)
    ensures MixRound(out, a, r, c).1 == a[if |a| < 2 then |a| else 2..]
    ensures MixRound(out, a, r, c).2 == r[if |r| < 2 then |r| else 2..]
    ensures MixRound(out, a, r, c).3 == c[if |c| < 1 then |c| else 1..]
  {
    var s1 := Pop(out, a);
    PopPattern(out, a);
    var s2 := Pop(s1.0, r);
    PopPattern(s1.0, r);
    var s3 := Pop(s2.0, s1.1);
    PopPattern(s2.0, s1.1);
    var s4 := Pop(s3.0, c);
    PopPattern(s3.0, c);
    var s5 := Pop(s4.0, s2.1);
    PopPattern(s4.0, s2.1);
    assert MixRound(out, a, r, c) == (s5.0, s3.1, s5.1, s4.1);
    NextPlace(a);
    NextPlace(r);
    assert PlaceAt(s1.1, 0) == PlaceAt(a, 1);
    assert PlaceAt(s2.1, 0) == PlaceAt(r, 1);
  }

  /** Popping twice: the second pop takes the list's second place, and the list is left from its third. */
  lemma NextPlace(xs: seq<Place>)
    ensures PlaceAt(xs[if |xs| < 1 then |xs| else 1..], 0) == PlaceAt(xs, 1)
    ensures var ys := xs[if |xs| < 1 then |xs| else 1..]; ys[if |ys| < 1 then |ys| else 1..] == xs[if |xs| < 2 then |xs| else 2..]
  {
  }

  lemma PopPattern(out: seq<Place>, xs: seq<Place>)
    ensures Pop(out, xs).0 == out + PlaceAt(xs, 0)
    ensures Pop(out, xs).1 == xs[if |xs| < 1 then |xs| else 1..]
  {
  }

  /** With two activities, two restaurants and a cafe left, a pass of the
      loop appends exactly A, R, A, C, R and the loop goes on from there. */
  lemma MixFromFullRound(out: seq<Place>, a: seq<Place>, r: seq<Place>, c: seq<Place>)
    requires |a| >= 2 && |r| >= 2 && |c| >= 1
    ensures MixRound(out, a, r, c) == (out + [a[0], r[0], a[1], c[0], r[1]], a[2..], r[2..], c[1..])
    ensures MixFrom(out, a, r, c) == MixFrom(out + [a[0], r[0], a[1], c[0], r[1]], a[2..], r[2..], c[1..])
  {
    MixRoundPattern(out, a, r, c);
    assert PlaceAt(a, 0) == [a[0]] && PlaceAt(a, 1) == [a[1]];
    assert PlaceAt(r, 0) == [r[0]] && PlaceAt(r, 1) == [r[1]];
    assert PlaceAt(c, 0) == [c[0]];
    assert out + [a[0]] + [r[0]] + [a[1]] + [c[0]] + [r[1]] == out + [a[0], r[0], a[1], c[0], r[1]];
    var m := MixRound(out, a, r, c);
    assert MixFrom(out, a, r, c) == MixFrom(m.0, m.1, m.2, m.3);
  }

  /** `all_places_to_visit`: the activities, restaurants and cafes mixed. */
  function Mix(places: seq<Place>): seq<Place> {
    MixFrom([], OfKinds(places, ActivityKinds), OfKinds(places, RestaurantKinds), OfKinds(places, CafeKinds))
  }

  lemma PopMultiset(out: seq<Place>, xs: seq<Place>)
    ensures multiset(Pop(out, xs).0) + multiset(Pop(out, xs).1) == multiset(out) + multiset(xs)
  {
    if xs != [] {
      assert xs == [xs[0]] + xs[1..];
    }
  }

  /** The bookkeeping of one round's five pops, count by count. */
  lemma PopsShuffle(o: multiset<Place>, a: multiset<Place>, r: multiset<Place>, c: multiset<Place>,
                    o1: multiset<Place>, a1: multiset<Place>, o2: multiset<Place>, r1: multiset<Place>,
                    o3: multiset<Place>, a2: multiset<Place>, o4: multiset<Place>, c1: multiset<Place>,
                    o5: multiset<Place>, r2: multiset<Place>)
    requires o1 + a1 == o + a && o2 + r1 == o1 + r && o3 + a2 == o2 + a1
    requires o4 + c1 == o3 + c && o5 + r2 == o4 + r1
    ensures o5 + a2 + r2 + c1 == o + a + r + c
  {
    forall x ensures (o5 + a2 + r2 + c1)[x] == (o + a + r + c)[x] {
      assert (o1 + a1)[x] == (o + a)[x];
      assert (o2 + r1)[x] == (o1 + r)[x];
      assert (o3 + a2)[x] == (o2 + a1)[x];
      assert (o4 + c1)[x] == (o3 + c)[x];
      assert (o5 + r2)[x] == (o4 + r1)[x];
    }
  }

  lemma MixRoundMultiset(out: seq<Place>, a: seq<Place>, r: seq<Place>, c: seq<Place>)
    ensures var m := MixRound(out, a, r, c);
      multiset(m.0) + multiset(m.1) + multiset(m.2) + multiset(m.3) ==
      multiset(out) + multiset(a) + multiset(r) + multiset(c)
  {
    var s1 := Pop(out, a);
    var s2 := Pop(s1.0, r);
    var s3 := Pop(s2.0, s1.1);
    var s4 := Pop(s3.0, c);
    var s5 := Pop(s4.0, s2.1);
    PopMultiset(out, a);
    PopMultiset(s1.0, r);
    PopMultiset(s2.0, s1.1);
    PopMultiset(s3.0, c);
    PopMultiset(s4.0, s2.1);
    PopsShuffle(multiset(out), multiset(a), multiset(r), multiset(c),
                multiset(s1.0), multiset(s1.1), multiset(s2.0), multiset(s2.1),
                multiset(s3.0), multiset(s3.1), multiset(s4.0), multiset(s4.1),
                multiset(s5.0), multiset(s5.1));
  }

  lemma {:induction false} MixFromMultiset(out: seq<Place>, a: seq<Place>, r: seq<Place>, c: seq<Place>)
    ensures multiset(MixFrom(out, a, r, c)) == multiset(out) + multiset(a) + multiset(r) + multiset(c)
    decreases |a| + |r| + |c|
  {
    if !(a == [] && r == [] && c == []) {
      var m := MixRound(out, a, r, c);
      MixRoundMultiset(out, a, r, c);
      MixFromMultiset(m.0, m.1, m.2, m.3);
    }
  }

  /** Mixing neither loses nor invents a place: the mix is the activities, the
      restaurants and the cafes, each place as often as in the input. */
  lemma MixIsTheThreeBuckets(places: seq<Place>)
    ensures multiset(Mix(places)) ==
      multiset(OfKinds(places, ActivityKinds)) + multiset(OfKinds(places, RestaurantKinds)) + multiset(OfKinds(places, CafeKinds))
  {
    MixFromMultiset([], OfKinds(places, ActivityKinds), OfKinds(places, RestaurantKinds), OfKinds(places, CafeKinds));
  }

  /** Hotels and places of other kinds are not mixed in. */
  lemma MixMembers(places: seq<Place>)
    ensures forall p :: p in Mix(places) <==>
      p in places && (p.kind in ActivityKinds || p.kind in RestaurantKinds || p.kind in CafeKinds)
  {
    var a, r, c := OfKinds(places, ActivityKinds), OfKinds(places, RestaurantKinds), OfKinds(places, CafeKinds);
    MixIsTheThreeBuckets(places);
    OfKindsMembers(places, ActivityKinds);
    OfKindsMembers(places, RestaurantKinds);
    OfKindsMembers(places, CafeKinds);
    forall p ensures p in Mix(places) <==> p in a || p in r || p in c {
      calc {
        p in Mix(places);
        p in multiset(Mix(places));
        p in multiset(a) + multiset(r) + multiset(c);
        p in multiset(a) || p in multiset(r) || p in multiset(c);
      }
    }
  }

  /** A pop moves the head of a list to the end of the output; filtered by
      kind, nothing else changes. */
  lemma PopFiltered(out: seq<Place>, xs: seq<Place>, kinds: seq<string>)
    ensures OfKinds(Pop(out, xs).0, kinds) + OfKinds(Pop(out, xs).1, kinds) == OfKinds(out, kinds) + OfKinds(xs, kinds)
    ensures OfKinds(xs, kinds) == [] ==> OfKinds(Pop(out, xs).0, kinds) == OfKinds(out, kinds) && OfKinds(Pop(out, xs).1, kinds) == []
  {
    if xs != [] {
      var h := [xs[0]];
      assert xs == h + xs[1..];
      OfKindsAppend(out, h, kinds);
      OfKindsAppend(h, xs[1..], kinds);
      OfKindsSingle(xs[0], kinds);
      AppendAssoc(OfKinds(out, kinds), OfKinds(h, kinds), OfKinds(xs[1..], kinds));
    } else {
      AppendEmpty(OfKinds(out, kinds));
    }
  }

  /** One round, read back by kind: when only one of the three lists holds
      places of the given kinds, those move to the output in order. */
  lemma MixRoundFiltered(out: seq<Place>, a: seq<Place>, r: seq<Place>, c: seq<Place>, kinds: seq<string>)
    ensures var m := MixRound(out, a, r, c);
      && (OfKinds(r, kinds) == [] && OfKinds(c, kinds) == [] ==>
            OfKinds(m.2, kinds) == [] && OfKinds(m.3, kinds) == [] &&
            OfKinds(m.0, kinds) + OfKinds(m.1, kinds) == OfKinds(out, kinds) + OfKinds(a, kinds))
      && (OfKinds(a, kinds) == [] && OfKinds(c, kinds) == [] ==>
            OfKinds(m.1, kinds) == [] && OfKinds(m.3, kinds) == [] &&
            OfKinds(m.0, kinds) + OfKinds(m.2, kinds) == OfKinds(out, kinds) + OfKinds(r, kinds))
      && (OfKinds(a, kinds) == [] && OfKinds(r, kinds) == [] ==>
            OfKinds(m.1, kinds) == [] && OfKinds(m.2, kinds) == [] &&
            OfKinds(m.0, kinds) + OfKinds(m.3, kinds) == OfKinds(out, kinds) + OfKinds(c, kinds))
  {
    var s1 := Pop(out, a);
    var s2 := Pop(s1.0, r);
    var s3 := Pop(s2.0, s1.1);
    var s4 := Pop(s3.0, c);
    PopFiltered(out, a, kinds);
    PopFiltered(s1.0, r, kinds);
    PopFiltered(s2.0, s1.1, kinds);
    PopFiltered(s3.0, c, kinds);
    PopFiltered(s4.0, s2.1, kinds);
  }

  /** When only one of the three lists holds places of the given kinds, the
      output gains that list's places of those kinds, in their order. */
  lemma {:induction false} MixFromKeepsOrder(out: seq<Place>, a: seq<Place>, r: seq<Place>, c: seq<Place>, kinds: seq<string>)
    ensures OfKinds(r, kinds) == [] && OfKinds(c, kinds) == [] ==>
      OfKinds(MixFrom(out, a, r, c), kinds) == OfKinds(out, kinds) + OfKinds(a, kinds)
    ensures OfKinds(a, kinds) == [] && OfKinds(c, kinds) == [] ==>
      OfKinds(MixFrom(out, a, r, c), kinds) == OfKinds(out, kinds) + OfKinds(r, kinds)
    ensures OfKinds(a, kinds) == [] && OfKinds(r, kinds) == [] ==>
      OfKinds(MixFrom(out, a, r, c), kinds) == OfKinds(out, kinds) + OfKinds(c, kinds)
    decreases |a| + |r| + |c|
  {
    if a == [] && r == [] && c == [] {
      AppendEmpty(OfKinds(out, kinds));
    } else {
      var m := MixRound(out, a, r, c);
      MixRoundFiltered(out, a, r, c, kinds);
      MixFromKeepsOrder(m.0, m.1, m.2, m.3, kinds);
    }
  }

  lemma OfKindsNone(ps: seq<Place>, kinds: seq<string>, other: seq<string>)
    requires forall k :: k in kinds ==> k !in other
    ensures OfKinds(OfKinds(ps, kinds), other) == []
    ensures OfKinds(OfKinds(ps, kinds), kinds) == OfKinds(ps, kinds)
  {
    OfKindsMembers(ps, kinds);
    OfKindsOfOwn(OfKinds(ps, kinds), kinds, other);
  }

  lemma {:induction false} OfKindsOfOwn(ps: seq<Place>, kinds: seq<string>, other: seq<string>)
    requires forall p :: p in ps ==> p.kind in kinds
    requires forall k :: k in kinds ==> k !in other
    ensures OfKinds(ps, other) == [] && OfKinds(ps, kinds) == ps
    decreases |ps|
  {
    if ps != [] {
      OfKindsOfOwn(ps[..|ps| - 1], kinds, other);
      assert ps == ps[..|ps| - 1] + [ps[|ps| - 1]];
    }
  }

  /** The mix keeps each bucket's order: read back by kind, it lists the
      activities, the restaurants and the cafes as the input listed them. */
  lemma MixKeepsEachBucketsOrder(places: seq<Place>)
    ensures OfKinds(Mix(places), ActivityKinds) == OfKinds(places, ActivityKinds)
    ensures OfKinds(Mix(places), RestaurantKinds) == OfKinds(places, RestaurantKinds)
    ensures OfKinds(Mix(places), CafeKinds) == OfKinds(places, CafeKinds)
  {
    var a, r, c := OfKinds(places, ActivityKinds), OfKinds(places, RestaurantKinds), OfKinds(places, CafeKinds);
    OfKindsNone(places, ActivityKinds, RestaurantKinds);
    OfKindsNone(places, ActivityKinds, CafeKinds);
    OfKindsNone(places, RestaurantKinds, ActivityKinds);
    OfKindsNone(places, RestaurantKinds, CafeKinds);
    OfKindsNone(places, CafeKinds, ActivityKinds);
    OfKindsNone(places, CafeKinds, RestaurantKinds);
    assert OfKinds([], ActivityKinds) == [] && OfKinds([], RestaurantKinds) == [] && OfKinds([], CafeKinds) == [];
    MixFromKeepsOrder([], a, r, c, ActivityKinds);
    MixFromKeepsOrder([], a, r, c, RestaurantKinds);
    MixFromKeepsOrder([], a, r, c, CafeKinds);
    AppendEmpty(a);
    AppendEmpty(r);
    AppendEmpty(c);
  }

  // ---------------------------------------------------------------------
  // Schedule records

  /** `morning` before 12:00, `lunch` before 14:00, `afternoon` before 17:00,
      `dinner` before 19:00, `night` after. */
  datatype Slot = Morning | Lunch | Afternoon | Dinner | Night

  function SlotOf(hour: int): (r: Slot)
    ensures r == Morning <==> hour < 12
    ensures r == Lunch <==> 12 <= hour < 14
    ensures r == Afternoon <==> 14 <= hour < 17
    ensures r == Dinner <==> 17 <= hour < 19
    ensures r == Night <==> 19 <= hour
  {
    if hour < 12 then Morning
    else if hour < 14 then Lunch
    else if hour < 17 then Afternoon
    else if hour < 19 then Dinner
    else Night
  }

  /** A travel record: the oracle's kilometres and minutes, the mode it was
      asked for and how the answer was produced. */
  datatype TravelInfo = TravelInfo(distanceKm: real, timeMinutes: int, mode: string, via: Method)

  /** `travel_options`: the walking and the public-transport estimate. */
  datatype TravelOptions = TravelOptions(walk: TravelInfo, public: TravelInfo)

  /** One schedule entry. `alternatives` are positions in the alternative
      places list: the entries are the caller's own records, annotated in
      place (see `Annotations`). */
  datatype ScheduleItem = ScheduleItem(
    order: nat,
    slot: Slot,
    startTime: Clock,
    endTime: Clock,
    place: Place,
    durationMinutes: int,
    travel: Option<TravelInfo>,
    options: Option<TravelOptions>,
    alternatives: seq<nat>)

  datatype Summary = Summary(totalDistanceKm: real, totalTravelMinutes: int)

  /** The five fields of a place the clustering report repeats. */
  datatype PlaceBrief = PlaceBrief(name: string, kind: string, score: Option<real>, lat: real, lon: real)

  datatype ClusterInfo = ClusterInfo(day: nat, placesInCluster: nat, places: seq<PlaceBrief>)

  /** `clustering_debug_info` (its constant method name left out). */
  datatype ClusteringDebug = ClusteringDebug(totalPlaces: nat, numClusters: int, clusters: seq<ClusterInfo>)

  datatype DayPlan = DayPlan(day: int, schedule: seq<ScheduleItem>, summary: Summary, clustering: Option<ClusteringDebug>)

  /** What has been written into the alternative places' `travel_from_previous`
      fields, by position: None when written at a day's first stop. A position
      that was never offered has no key. */
  type Annotations = map<nat, Option<TravelInfo>>

  function Info(e: Estimate, mode: string): TravelInfo {
    TravelInfo(e.distanceKm, e.timeMinutes, mode, e.via)
  }

  function Brief(p: Place): PlaceBrief {
    PlaceBrief(p.name, p.kind, p.score, p.lat, p.lon)
  }

  function ClusteringReport(mixed: seq<Place>, days: int, clusters: seq<seq<Place>>): ClusteringDebug {
    ClusteringDebug(|mixed|, days,
      seq(|clusters|, i requires 0 <= i < |clusters| =>
        ClusterInfo(i + 1, |clusters[i]|, seq(|clusters[i]|, j requires 0 <= j < |clusters[i]| => Brief(clusters[i][j])))))
  }

  // ---------------------------------------------------------------------
  // Alternatives of the same kind

  /** Positions below n of the alternative places of the given kind, in order. */
  function SameKindUpTo(alts: seq<Place>, kind: string, n: nat): (r: seq<nat>)
    requires n <= |alts|
    ensures |r| <= n
    ensures forall j :: 0 <= j < |r| ==> r[j] < n
  {
    if n == 0 then [] else SameKindUpTo(alts, kind, n - 1) + (if alts[n - 1].kind == kind then [n - 1] else [])
  }

  /** `[alt for alt in alternative_places if alt['type'] == kind][:5]`, as positions. */
  function AlternativesOf(alts: seq<Place>, kind: string): (r: seq<nat>)
    ensures |r| <= MaxAlternatives
    ensures forall j :: 0 <= j < |r| ==> r[j] < |alts|
  {
    var all := SameKindUpTo(alts, kind, |alts|);
    all[..Min(MaxAlternatives, |all|)]
  }

  lemma {:induction false} SameKindUpToSpec(alts: seq<Place>, kind: string, n: nat)
    requires n <= |alts|
    ensures var r := SameKindUpTo(alts, kind, n);
      && (forall x :: x in r <==> 0 <= x < n && alts[x].kind == kind)
      && (forall i, j :: 0 <= i < j < |r| ==> r[i] < r[j])
    decreases n
  {
    if n > 0 {
      SameKindUpToSpec(alts, kind, n - 1);
    }
  }

  /** The alternatives of a stop are alternative places of its kind, in list
      order, and they are the first ones: a same-kind place left out means five
      were offered, all listed before it. */
  lemma AlternativesAreFirstOfKind(alts: seq<Place>, kind: string)
    ensures var r := AlternativesOf(alts, kind);
      && (forall j :: 0 <= j < |r| ==> alts[r[j]].kind == kind)
      && (forall i, j :: 0 <= i < j < |r| ==> r[i] < r[j])
      && (forall x :: 0 <= x < |alts| && alts[x].kind == kind && x !in r ==>
            |r| == MaxAlternatives && forall j :: 0 <= j < |r| ==> r[j] < x)
  {
    AlternativesOfKind(alts, kind);
    AlternativesAreFirst(alts, kind);
  }

  lemma AlternativesOfKind(alts: seq<Place>, kind: string)
    ensures var r := AlternativesOf(alts, kind);
      && (forall j :: 0 <= j < |r| ==> alts[r[j]].kind == kind)
      && (forall i, j :: 0 <= i < j < |r| ==> r[i] < r[j])
  {
    var all := SameKindUpTo(alts, kind, |alts|);
    SameKindUpToSpec(alts, kind, |alts|);
    var r := AlternativesOf(alts, kind);
    forall j | 0 <= j < |r| ensures alts[r[j]].kind == kind {
      assert r[j] == all[j] && all[j] in all;
    }
  }

  lemma AlternativesAreFirst(alts: seq<Place>, kind: string)
    ensures var r := AlternativesOf(alts, kind);
      forall x :: 0 <= x < |alts| && alts[x].kind == kind && x !in r ==>
        |r| == MaxAlternatives && forall j :: 0 <= j < |r| ==> r[j] < x
  {
    var all := SameKindUpTo(alts, kind, |alts|);
    SameKindUpToSpec(alts, kind, |alts|);
    var r := AlternativesOf(alts, kind);
    assert r == all[..|r|];
    forall x | 0 <= x < |alts| && alts[x].kind == kind && x !in r
      ensures |r| == MaxAlternatives && forall j :: 0 <= j < |r| ==> r[j] < x
    {
      IncreasingPrefix(all, |r|, x);
    }
  }

  /** In a strictly increasing list, an element beyond the first n is larger
      than each of the first n. */
  lemma IncreasingPrefix(all: seq<nat>, n: nat, x: nat)
    requires n <= |all| && x in all && x !in all[..n]
    requires forall i, j :: 0 <= i < j < |all| ==> all[i] < all[j]
    ensures n < |all| && forall j :: 0 <= j < n ==> all[j] < x
  {
    var k :| 0 <= k < |all| && all[k] == x;
    assert forall q :: 0 <= q < n ==> all[..n][q] == all[q];
    assert k >= n;
  }

  // ---------------------------------------------------------------------
  // The queries of a day

  /** Legs traversed once n stops are scheduled. */
  function Elapsed(n: nat): nat {
    if n == 0 then 0 else n - 1
  }

  /** The walking estimates for the legs into stops 1..n-1, asked in order
      (the source gathers them concurrently). */
  function LegsUpTo(c: Cache, cfg: Config, provider: Provider, stops: seq<Place>, n: nat): (r: (seq<Estimate>, Cache))
    requires WellFormed(c, cfg.maxSize) && n <= |stops|
    ensures |r.0| == Elapsed(n)
    ensures WellFormed(r.1, cfg.maxSize)
    ensures CacheValid(c, cfg) ==> CacheValid(r.1, cfg)
    decreases n
  {
    if n <= 1 then ([], c)
    else
      var done := LegsUpTo(c, cfg, provider, stops, n - 1);
      var q := Query(done.1, cfg, provider, Some(stops[n - 2].lat), Some(stops[n - 2].lon),
                     Some(stops[n - 1].lat), Some(stops[n - 1].lon), "walk");
      (done.0 + [q.0], q.1)
  }

  /** A walking estimate: never from the provider, and its minutes are the
      straight-line minutes for its distance at walking speed. */
  ghost predicate Walked(e: Estimate) {
    (e.via == ByHaversine || e.via == FromCache) && e.timeMinutes == StraightTime(e.distanceKm, "walk")
  }

  ghost predicate AllWalked(legs: seq<Estimate>) {
    forall j :: 0 <= j < |legs| ==> Walked(legs[j])
  }

  lemma AllWalkedSnoc(legs: seq<Estimate>, e: Estimate)
    requires AllWalked(legs) && Walked(e)
    ensures AllWalked(legs + [e])
  {
    assert forall j :: 0 <= j < |legs| ==> (legs + [e])[j] == legs[j];
  }

  /** With a consistent cache every leg estimate is a walking one. */
  lemma {:induction false} LegsAreWalks(c: Cache, cfg: Config, provider: Provider, stops: seq<Place>, n: nat)
    requires CacheValid(c, cfg) && n <= |stops|
    ensures AllWalked(LegsUpTo(c, cfg, provider, stops, n).0)
    decreases n
  {
    if n > 1 {
      var done := LegsUpTo(c, cfg, provider, stops, n - 1);
      LegsAreWalks(c, cfg, provider, stops, n - 1);
      var q := Query(done.1, cfg, provider, Some(stops[n - 2].lat), Some(stops[n - 2].lon),
                     Some(stops[n - 1].lat), Some(stops[n - 1].lon), "walk");
      WalkingLegIsStraight(done.1, cfg, provider, stops[n - 2].lat, stops[n - 2].lon, stops[n - 1].lat, stops[n - 1].lon);
      AllWalkedSnoc(done.0, q.0);
      assert LegsUpTo(c, cfg, provider, stops, n).0 == done.0 + [q.0];
    }
  }

  /** Both transport options for the leg from one stop to the next. */
  function LegOptions(c: Cache, cfg: Config, provider: Provider, from: Place, to: Place): (r: (TravelOptions, Cache))
    requires WellFormed(c, cfg.maxSize)
    ensures WellFormed(r.1, cfg.maxSize)
    ensures CacheValid(c, cfg) ==> CacheValid(r.1, cfg)
  {
    var w := Query(c, cfg, provider, Some(from.lat), Some(from.lon), Some(to.lat), Some(to.lon), "walk");
    var p := Query(w.1, cfg, provider, Some(from.lat), Some(from.lon), Some(to.lat), Some(to.lon), "public");
    (TravelOptions(Info(w.0, "walk"), Info(p.0, "public")), p.1)
  }

  /** Walk if the alternative is within walking range of the previous stop. */
  function AltMode(straightKm: real): string {
    if straightKm < WalkingRangeKm then "walk" else "public"
  }

  /** The record written into one offered alternative: None at the day's
      first stop, else the oracle's estimate from the previous stop in the
      mode the straight-line distance calls for. */
  function AnnotateOne(c: Cache, cfg: Config, provider: Provider, alt: Place, prev: Option<Place>): (r: (Option<TravelInfo>, Cache))
    requires WellFormed(c, cfg.maxSize)
    ensures WellFormed(r.1, cfg.maxSize)
    ensures CacheValid(c, cfg) ==> CacheValid(r.1, cfg)
    ensures prev.None? ==> r.1 == c
    ensures RecordFits(r.0, cfg.haversine, prev, alt)
  {
    if prev.None? then (None, c)
    else
      var mode := AltMode(cfg.haversine(prev.value.lat, prev.value.lon, alt.lat, alt.lon));
      var q := Query(c, cfg, provider, Some(prev.value.lat), Some(prev.value.lon), Some(alt.lat), Some(alt.lon), mode);
      (Some(Info(q.0, mode)), q.1)
  }

  /** A record fits its alternative: None at the first stop (no previous
      place), otherwise present and in walking mode exactly when the
      alternative is within walking range of the previous place. */
  ghost predicate RecordFits(v: Option<TravelInfo>, h: Haversine, prev: Option<Place>, alt: Place) {
    && (prev.None? ==> v.None?)
    && (prev.Some? ==> v.Some? && v.value.mode == AltMode(h(prev.value.lat, prev.value.lon, alt.lat, alt.lon)))
  }

  /** The records for the first n offered alternatives, asked in order. */
  function AnnotateUpTo(c: Cache, cfg: Config, provider: Provider, alts: seq<Place>,
                        idx: seq<nat>, prev: Option<Place>, n: nat): (r: (seq<Option<TravelInfo>>, Cache))
    requires WellFormed(c, cfg.maxSize) && n <= |idx|
    requires forall j :: 0 <= j < |idx| ==> idx[j] < |alts|
    ensures |r.0| == n
    ensures WellFormed(r.1, cfg.maxSize)
    ensures CacheValid(c, cfg) ==> CacheValid(r.1, cfg)
    decreases n
  {
    if n == 0 then ([], c)
    else
      var done := AnnotateUpTo(c, cfg, provider, alts, idx, prev, n - 1);
      var one := AnnotateOne(done.1, cfg, provider, alts[idx[n - 1]], prev);
      (done.0 + [one.0], one.1)
  }

  /** Writing the records into the alternatives' `travel_from_previous`
      fields, one position after the other. */
  function WriteAll(m: Annotations, keys: seq<nat>, values: seq<Option<TravelInfo>>, n: nat): Annotations
    requires n <= |keys| && n <= |values|
  {
    if n == 0 then m else WriteAll(m, keys, values, n - 1)[keys[n - 1] := values[n - 1]]
  }

  /** `r` is `m` with the positions in `keys` written and nothing else. */
  ghost predicate WrittenAt(r: Annotations, m: Annotations, keys: seq<nat>) {
    && (forall x :: x in r <==> x in m || x in keys)
    && (forall x :: x in m && x !in keys ==> r[x] == m[x])
  }

  /** Writing changes exactly the written positions. */
  lemma {:induction false} WriteAllWritten(m: Annotations, keys: seq<nat>, values: seq<Option<TravelInfo>>, n: nat)
    requires n <= |keys| && n <= |values|
    ensures WrittenAt(WriteAll(m, keys, values, n), m, keys[..n])
    decreases n
  {
    if n == 0 {
      assert keys[..0] == [];
    } else {
      WriteAllWritten(m, keys, values, n - 1);
      assert keys[..n] == keys[..n - 1] + [keys[n - 1]];
    }
  }

  /** Each written position holds its value. */
  ghost predicate ValuesAt(r: Annotations, keys: seq<nat>, values: seq<Option<TravelInfo>>) {
    forall j :: 0 <= j < |keys| ==> j < |values| && keys[j] in r && r[keys[j]] == values[j]
  }

  /** Writing distinct positions leaves each with the value written to it. */
  lemma {:induction false} WriteAllValues(m: Annotations, keys: seq<nat>, values: seq<Option<TravelInfo>>, n: nat)
    requires n <= |keys| && n <= |values| && Distinct(keys[..n])
    ensures ValuesAt(WriteAll(m, keys, values, n), keys[..n], values)
    decreases n
  {
    if n > 0 {
      var init := keys[..n - 1];
      assert keys[..n][..n - 1] == init;
      WriteAllValues(m, keys, values, n - 1);
      var r := WriteAll(m, keys, values, n);
      forall j | 0 <= j < n ensures keys[j] in r && r[keys[j]] == values[j] {
        if j < n - 1 {
          assert keys[j] == init[j] && init[j] in init;
        }
      }
    }
  }

  /** One more offered alternative: its record follows the earlier ones,
      asked of the cache they left. */
  lemma AnnotateStep(c: Cache, cfg: Config, provider: Provider, alts: seq<Place>, idx: seq<nat>, prev: Option<Place>, n: nat)
    requires WellFormed(c, cfg.maxSize) && 0 < n <= |idx|
    requires forall j :: 0 <= j < |idx| ==> idx[j] < |alts|
    ensures AnnotateUpTo(c, cfg, provider, alts, idx, prev, n).0 ==
      AnnotateUpTo(c, cfg, provider, alts, idx, prev, n - 1).0 +
      [AnnotateOne(AnnotateUpTo(c, cfg, provider, alts, idx, prev, n - 1).1, cfg, provider, alts[idx[n - 1]], prev).0]
    ensures AnnotateUpTo(c, cfg, provider, alts, idx, prev, n).1 ==
      AnnotateOne(AnnotateUpTo(c, cfg, provider, alts, idx, prev, n - 1).1, cfg, provider, alts[idx[n - 1]], prev).1
  {
  }

  /** At the day's first stop nothing is asked of the oracle. */
  lemma {:induction false} AnnotateAtFirstStop(c: Cache, cfg: Config, provider: Provider, alts: seq<Place>, idx: seq<nat>, n: nat)
    requires WellFormed(c, cfg.maxSize) && n <= |idx|
    requires forall j :: 0 <= j < |idx| ==> idx[j] < |alts|
    ensures AnnotateUpTo(c, cfg, provider, alts, idx, None, n).1 == c
    decreases n
  {
    if n > 0 {
      AnnotateAtFirstStop(c, cfg, provider, alts, idx, n - 1);
      AnnotateStep(c, cfg, provider, alts, idx, None, n);
    }
  }

  // ---------------------------------------------------------------------
  // What the oracle is asked at each stop

  /** The answers gathered at one stop: both options for the leg into it
      (none at the first stop) and the records for its offered alternatives. */
  datatype Ask = Ask(options: Option<TravelOptions>, records: seq<Option<TravelInfo>>)

  /** Both options for the leg into stop i, none for the first stop. */
  function OptionsInto(c: Cache, cfg: Config, provider: Provider, stops: seq<Place>, i: nat): (r: (Option<TravelOptions>, Cache))
    requires WellFormed(c, cfg.maxSize) && i < |stops|
    ensures WellFormed(r.1, cfg.maxSize)
    ensures CacheValid(c, cfg) ==> CacheValid(r.1, cfg)
    ensures r.0.None? <==> i == 0
    ensures r.0.Some? ==> r.0.value.walk.mode == "walk" && r.0.value.public.mode == "public"
  {
    if i == 0 then (None, c)
    else
      var o := LegOptions(c, cfg, provider, stops[i - 1], stops[i]);
      (Some(o.0), o.1)
  }

  /** The stop before stop i, if any. */
  function Previous(stops: seq<Place>, i: nat): Option<Place>
    requires i < |stops|
  {
    if i == 0 then None else Some(stops[i - 1])
  }

  /** The queries the schedule loop makes at stop i, in its order: the two
      options, then one record per offered alternative. */
  function AskAt(c: Cache, cfg: Config, provider: Provider, stops: seq<Place>, alts: seq<Place>, i: nat): (r: (Ask, Cache))
    requires WellFormed(c, cfg.maxSize) && i < |stops|
    ensures WellFormed(r.1, cfg.maxSize)
    ensures CacheValid(c, cfg) ==> CacheValid(r.1, cfg)
  {
    var idx := AlternativesOf(alts, stops[i].kind);
    var o := OptionsInto(c, cfg, provider, stops, i);
    var a := AnnotateUpTo(o.1, cfg, provider, alts, idx, Previous(stops, i), |idx|);
    (Ask(o.0, a.0), a.1)
  }

  /** The queries made at the first n stops. */
  function AsksUpTo(c: Cache, cfg: Config, provider: Provider, stops: seq<Place>, alts: seq<Place>, n: nat): (r: (seq<Ask>, Cache))
    requires WellFormed(c, cfg.maxSize) && n <= |stops|
    ensures |r.0| == n
    ensures WellFormed(r.1, cfg.maxSize)
    ensures CacheValid(c, cfg) ==> CacheValid(r.1, cfg)
    ensures AsksFit(r.0, cfg.haversine, stops, alts)
    decreases n
  {
    if n == 0 then ([], c)
    else
      var done := AsksUpTo(c, cfg, provider, stops, alts, n - 1);
      var one := AskAt(done.1, cfg, provider, stops, alts, n - 1);
      AskAtFits(done.1, cfg, provider, stops, alts, n - 1);
      AsksFitSnoc(done.0, cfg.haversine, stops, alts, one.0);
      (done.0 + [one.0], one.1)
  }

  /** Options exist exactly from the second stop on, one per mode. */
  ghost predicate OptionsFit(o: Option<TravelOptions>, i: nat) {
    && (o.None? <==> i == 0)
    && (o.Some? ==> o.value.walk.mode == "walk" && o.value.public.mode == "public")
  }

  /** What the answers at stop i look like: options as above, one record per
      offered alternative. */
  ghost predicate AskFits(ask: Ask, h: Haversine, stops: seq<Place>, alts: seq<Place>, i: nat)
    requires i < |stops|
  {
    var idx := AlternativesOf(alts, stops[i].kind);
    && OptionsFit(ask.options, i)
    && |ask.records| == |idx|
  }

  lemma AskAtFits(c: Cache, cfg: Config, provider: Provider, stops: seq<Place>, alts: seq<Place>, i: nat)
    requires WellFormed(c, cfg.maxSize) && i < |stops|
    ensures AskFits(AskAt(c, cfg, provider, stops, alts, i).0, cfg.haversine, stops, alts, i)
  {
  }

  ghost predicate AsksFit(asks: seq<Ask>, h: Haversine, stops: seq<Place>, alts: seq<Place>) {
    |asks| <= |stops| && forall i :: 0 <= i < |asks| ==> AskFits(asks[i], h, stops, alts, i)
  }

  lemma AsksFitSnoc(asks: seq<Ask>, h: Haversine, stops: seq<Place>, alts: seq<Place>, ask: Ask)
    requires AsksFit(asks, h, stops, alts) && |asks| < |stops| && AskFits(ask, h, stops, alts, |asks|)
    ensures AsksFit(asks + [ask], h, stops, alts)
  {
    assert forall i :: 0 <= i < |asks| ==> (asks + [ask])[i] == asks[i];
  }

  // ---------------------------------------------------------------------
  // Building the schedule from the answers

  /** An entry before its times are printed: the stop, the minute it starts
      at, its options and its offered alternatives. */
  datatype Draft = Draft(clock: int, place: Place, options: Option<TravelOptions>, alternatives: seq<nat>)

  /** The schedule loop's running values. */
  datatype Tally = Tally(drafts: seq<Draft>, clock: int, totalDistance: real, totalTime: int, annotations: Annotations)

  /** Minutes and kilometres of the leg into stop i (none into the first). */
  function MinutesInto(legs: seq<Estimate>, i: nat): int
    requires i <= |legs|
  {
    if i == 0 then 0 else legs[i - 1].timeMinutes
  }

  function KmInto(legs: seq<Estimate>, i: nat): real
    requires i <= |legs|
  {
    if i == 0 then 0.0 else legs[i - 1].distanceKm
  }

  /** The printed entry number i: a 90-minute stay, start and end printed as
      `HH:MM`, in the slot of the hour read back from the printed start; the
      walking option is the travel record. */
  function Render(i: nat, d: Draft): (r: ScheduleItem)
    ensures r.order == i + 1 && r.place == d.place && r.durationMinutes == StayMinutes
    ensures r.startTime == Clock(d.clock) && r.endTime == Clock(d.clock + StayMinutes)
    ensures r.slot == SlotOf(HourOf(r.startTime.Text()))
    ensures r.travel == (if d.options.Some? then Some(d.options.value.walk) else None)
    ensures r.options == d.options && r.alternatives == d.alternatives
  {
    ScheduleItem(i + 1, SlotOf(d.clock / 60), Clock(d.clock), Clock(d.clock + StayMinutes), d.place, StayMinutes,
                 if d.options.Some? then Some(d.options.value.walk) else None, d.options, d.alternatives)
  }

  /** The printed schedule: draft i printed as entry i. */
  function Rendered(ds: seq<Draft>): (r: seq<ScheduleItem>)
    ensures |r| == |ds|
    decreases |ds|
  {
    if ds == [] then [] else Rendered(ds[..|ds| - 1]) + [Render(|ds| - 1, ds[|ds| - 1])]
  }

  lemma {:induction false} RenderedAt(ds: seq<Draft>)
    ensures forall i :: 0 <= i < |ds| ==> Rendered(ds)[i] == Render(i, ds[i])
    decreases |ds|
  {
    if ds != [] {
      RenderedAt(ds[..|ds| - 1]);
    }
  }

  /** The loop body for stop i: advance the clock by the leg into it, add
      the entry, add the leg to the totals and write the alternatives'
      records. */
  function Step(t: Tally, stops: seq<Place>, legs: seq<Estimate>, alts: seq<Place>, ask: Ask, i: nat): (r: Tally)
    requires i < |stops| && |legs| == Elapsed(|stops|)
    ensures |r.drafts| == |t.drafts| + 1 && r.drafts[..|t.drafts|] == t.drafts
    ensures r.drafts[|t.drafts|].place == stops[i] && r.clock == r.drafts[|t.drafts|].clock + StayMinutes
    ensures r.totalTime - t.totalTime == r.drafts[|t.drafts|].clock - t.clock
  {
    var idx := AlternativesOf(alts, stops[i].kind);
    var clock := t.clock + MinutesInto(legs, i);
    Tally(t.drafts + [Draft(clock, stops[i], ask.options, idx)], clock + StayMinutes,
          t.totalDistance + KmInto(legs, i), t.totalTime + MinutesInto(legs, i),
          WriteAll(t.annotations, idx, ask.records, Min(|idx|, |ask.records|)))
  }

  /** The schedule loop over the first n stops. */
  function Fold(t: Tally, stops: seq<Place>, legs: seq<Estimate>, alts: seq<Place>, asks: seq<Ask>, n: nat): (r: Tally)
    requires n <= |stops| && n <= |asks| && |legs| == Elapsed(|stops|)
    ensures |r.drafts| == |t.drafts| + n && t.drafts <= r.drafts
    decreases n
  {
    if n == 0 then t else Step(Fold(t, stops, legs, alts, asks, n - 1), stops, legs, alts, asks[n - 1], n - 1)
  }

  function LegMinutes(legs: seq<Estimate>, n: nat): int
    requires n <= |legs|
  {
    if n == 0 then 0 else LegMinutes(legs, n - 1) + legs[n - 1].timeMinutes
  }

  function LegKm(legs: seq<Estimate>, n: nat): real
    requires n <= |legs|
  {
    if n == 0 then 0.0 else LegKm(legs, n - 1) + legs[n - 1].distanceKm
  }

  /** When stop i starts: 09:00, plus 90 minutes per earlier stop, plus the
      legs walked so far. */
  function StartOf(legs: seq<Estimate>, i: nat): (r: int)
    requires i <= |legs|
    ensures i == 0 ==> r == 9 * 60
  {
    DayStartMinutes + StayMinutes * i + LegMinutes(legs, i)
  }

  /** Every later stop starts when the one before it ends, 90 minutes after
      its start, plus the leg between them. */
  lemma StartAfterPrevious(legs: seq<Estimate>, i: nat)
    requires 0 < i <= |legs|
    ensures StartOf(legs, i) == StartOf(legs, i - 1) + StayMinutes + legs[i - 1].timeMinutes
  {
  }

  /** What the printed entry for stop i says. */
  ghost predicate ItemAt(item: ScheduleItem, stops: seq<Place>, legs: seq<Estimate>, alts: seq<Place>, i: nat)
    requires i < |stops| && |legs| == Elapsed(|stops|)
  {
    && item.order == i + 1
    && item.place == stops[i]
    && item.durationMinutes == StayMinutes
    && item.startTime == Clock(StartOf(legs, i))
    && item.endTime == Clock(StartOf(legs, i) + StayMinutes)
    && item.slot == SlotOf(StartOf(legs, i) / 60)
    && item.slot == SlotOf(HourOf(item.startTime.Text()))
    && (item.travel.None? <==> i == 0)
    && (item.options.None? <==> i == 0)
    && (i > 0 ==> item.travel == Some(item.options.value.walk) &&
                  item.options.value.walk.mode == "walk" && item.options.value.public.mode == "public")
    && item.alternatives == AlternativesOf(alts, stops[i].kind)
  }

  /** The draft for stop i: its start minute, the stop, fitting options and
      the alternatives of its kind. */
  ghost predicate DraftAt(d: Draft, stops: seq<Place>, legs: seq<Estimate>, alts: seq<Place>, i: nat)
    requires i < |stops| && |legs| == Elapsed(|stops|)
  {
    && d.clock == StartOf(legs, i)
    && d.place == stops[i]
    && OptionsFit(d.options, i)
    && d.alternatives == AlternativesOf(alts, stops[i].kind)
  }

  /** The loop's values after n stops. */
  ghost predicate TallyAt(t: Tally, stops: seq<Place>, legs: seq<Estimate>, alts: seq<Place>, n: nat)
    requires n <= |stops| && |legs| == Elapsed(|stops|)
  {
    && |t.drafts| == n
    && t.clock == DayStartMinutes + StayMinutes * n + LegMinutes(legs, Elapsed(n))
    && t.totalTime == LegMinutes(legs, Elapsed(n))
    && t.totalDistance == LegKm(legs, Elapsed(n))
    && (forall i :: 0 <= i < n ==> DraftAt(t.drafts[i], stops, legs, alts, i))
  }

  /** A draft for stop i prints as the entry ItemAt describes: its number,
      place, stay, printed start and end, the slot of the start hour, travel
      records exactly from the second stop on, and the alternatives. */
  lemma RenderSays(d: Draft, stops: seq<Place>, legs: seq<Estimate>, alts: seq<Place>, i: nat)
    requires i < |stops| && |legs| == Elapsed(|stops|)
    requires DraftAt(d, stops, legs, alts, i)
    ensures ItemAt(Render(i, d), stops, legs, alts, i)
  {
  }

  /** One step extends a correct tally by the correct draft for stop i. */
  lemma StepShape(t: Tally, stops: seq<Place>, legs: seq<Estimate>, alts: seq<Place>, ask: Ask, i: nat)
    requires i < |stops| && |legs| == Elapsed(|stops|)
    requires TallyAt(t, stops, legs, alts, i) && OptionsFit(ask.options, i)
    ensures TallyAt(Step(t, stops, legs, alts, ask, i), stops, legs, alts, i + 1)
  {
    assert t.clock + MinutesInto(legs, i) == StartOf(legs, i);
    var r := Step(t, stops, legs, alts, ask, i);
    var d := Draft(StartOf(legs, i), stops[i], ask.options, AlternativesOf(alts, stops[i].kind));
    assert r.drafts == t.drafts + [d];
    forall j | 0 <= j < i + 1 ensures DraftAt(r.drafts[j], stops, legs, alts, j) {
      if j < i {
        assert r.drafts[j] == t.drafts[j];
      }
    }
  }

  /** The schedule built from answers of the right shape is correct after
      every stop. */
  lemma {:induction false} FoldShape(t: Tally, stops: seq<Place>, legs: seq<Estimate>, alts: seq<Place>,
                                     asks: seq<Ask>, n: nat)
    requires n <= |stops| && n <= |asks| && |legs| == Elapsed(|stops|)
    requires forall i :: 0 <= i < n ==> OptionsFit(asks[i].options, i)
    requires t.drafts == [] && t.clock == DayStartMinutes && t.totalDistance == 0.0 && t.totalTime == 0
    ensures TallyAt(Fold(t, stops, legs, alts, asks, n), stops, legs, alts, n)
    decreases n
  {
    if n == 0 {
      assert LegMinutes(legs, Elapsed(0)) == 0 && LegKm(legs, Elapsed(0)) == 0.0;
    } else {
      FoldShape(t, stops, legs, alts, asks, n - 1);
      StepShape(Fold(t, stops, legs, alts, asks, n - 1), stops, legs, alts, asks[n - 1], n - 1);
    }
  }

  /** The day's printed schedule, entry by entry: stop i is entry i, numbered
      i + 1, starting at 09:00 plus 90 minutes per earlier stop plus the legs
      walked so far, in the slot of that start hour, with travel records
      exactly from the second stop on; the totals are the sums over the legs. */
  lemma ScheduleShape(t: Tally, stops: seq<Place>, legs: seq<Estimate>, alts: seq<Place>, asks: seq<Ask>)
    requires |stops| <= |asks| && |legs| == Elapsed(|stops|)
    requires forall i :: 0 <= i < |stops| ==> OptionsFit(asks[i].options, i)
    requires t.drafts == [] && t.clock == DayStartMinutes && t.totalDistance == 0.0 && t.totalTime == 0
    ensures var f := Fold(t, stops, legs, alts, asks, |stops|);
      && |Rendered(f.drafts)| == |stops|
      && (forall i :: 0 <= i < |stops| ==> ItemAt(Rendered(f.drafts)[i], stops, legs, alts, i))
      && f.totalTime == LegMinutes(legs, |legs|)
      && f.totalDistance == LegKm(legs, |legs|)
  {
    var f := Fold(t, stops, legs, alts, asks, |stops|);
    FoldShape(t, stops, legs, alts, asks, |stops|);
    RenderedAt(f.drafts);
    forall i | 0 <= i < |stops| ensures ItemAt(Rendered(f.drafts)[i], stops, legs, alts, i) {
      RenderSays(f.drafts[i], stops, legs, alts, i);
    }
  }

  // ---------------------------------------------------------------------
  // One day

  /** `clustered_places[day-1] if day <= len(clustered_places) else []` */
  function DailyPlaces(clusters: seq<seq<Place>>, day: nat): (r: seq<Place>)
    requires 1 <= day
    ensures day <= |clusters| ==> r == clusters[day - 1]
    ensures |clusters| < day ==> r == []
  {
    if day <= |clusters| then clusters[day - 1] else []
  }

  /** The optimized route, with the main hotel appended on every day but the
      last. */
  function Stops(route: seq<Place>, hotel: Option<Place>, day: int, days: int): (r: seq<Place>)
    ensures hotel.Some? && day < days ==> r == route + [hotel.value]
    ensures hotel.None? || days <= day ==> r == route
  {
    if hotel.Some? && day < days then route + [hotel.value] else route
  }

  function Places(items: seq<ScheduleItem>): (r: seq<Place>)
    ensures |r| == |items| && forall i :: 0 <= i < |items| ==> r[i] == items[i].place
  {
    seq(|items|, i requires 0 <= i < |items| => items[i].place)
  }

  /** The plan for one day: route the day's places from the main hotel, close
      with the hotel before the last day, ask the walking legs, then build the
      schedule stop by stop; the summary rounds the distance to two places. */
  function PlanDaySpec(c: Cache, cfg: Config, provider: Provider, clusters: seq<seq<Place>>, hotel: Option<Place>,
                       day: nat, days: int, alts: seq<Place>, m: Annotations): (r: (DayPlan, Annotations, Cache))
    requires WellFormed(c, cfg.maxSize) && 1 <= day
    ensures WellFormed(r.2, cfg.maxSize)
    ensures CacheValid(c, cfg) ==> CacheValid(r.2, cfg)
    ensures r.0.day == day && r.0.clustering.None?
  {
    var route := Route(c, cfg, provider, DailyPlaces(clusters, day), hotel);
    var stops := Stops(route.0, hotel, day, days);
    var legs := LegsUpTo(route.1, cfg, provider, stops, |stops|);
    var asks := AsksUpTo(legs.1, cfg, provider, stops, alts, |stops|);
    var f := Fold(Tally([], DayStartMinutes, 0.0, 0, m), stops, legs.0, alts, asks.0, |stops|);
    (DayPlan(day, Rendered(f.drafts), Summary(Round2(f.totalDistance), f.totalTime), None), f.annotations, asks.1)
  }

  /** The printed schedule lists the stops in order. */
  lemma FoldPlaces(t: Tally, stops: seq<Place>, legs: seq<Estimate>, alts: seq<Place>, asks: seq<Ask>)
    requires |stops| <= |asks| && |legs| == Elapsed(|stops|)
    requires forall i :: 0 <= i < |stops| ==> OptionsFit(asks[i].options, i)
    requires t.drafts == [] && t.clock == DayStartMinutes && t.totalDistance == 0.0 && t.totalTime == 0
    ensures Places(Rendered(Fold(t, stops, legs, alts, asks, |stops|).drafts)) == stops
  {
    var f := Fold(t, stops, legs, alts, asks, |stops|);
    var rs := Rendered(f.drafts);
    FoldShape(t, stops, legs, alts, asks, |stops|);
    RenderedAt(f.drafts);
    forall i | 0 <= i < |stops| ensures rs[i].place == stops[i] {
      assert DraftAt(f.drafts[i], stops, legs, alts, i);
    }
    assert Places(rs) == stops;
  }

  /** The answers' options fit at every stop. */
  lemma AsksOptionsFit(asks: seq<Ask>, h: Haversine, stops: seq<Place>, alts: seq<Place>)
    requires AsksFit(asks, h, stops, alts) && |asks| == |stops|
    ensures forall i :: 0 <= i < |stops| ==> OptionsFit(asks[i].options, i)
  {
    forall i | 0 <= i < |stops| ensures OptionsFit(asks[i].options, i) {
      assert AskFits(asks[i], h, stops, alts, i);
    }
  }

  /** A day's schedule visits exactly its stops, in order. */
  lemma DayVisitsStops(c: Cache, cfg: Config, provider: Provider, clusters: seq<seq<Place>>, hotel: Option<Place>,
                       day: nat, days: int, alts: seq<Place>, m: Annotations)
    requires WellFormed(c, cfg.maxSize) && 1 <= day
    ensures var route := Route(c, cfg, provider, DailyPlaces(clusters, day), hotel);
      Places(PlanDaySpec(c, cfg, provider, clusters, hotel, day, days, alts, m).0.schedule) == Stops(route.0, hotel, day, days)
  {
    var route := Route(c, cfg, provider, DailyPlaces(clusters, day), hotel);
    var stops := Stops(route.0, hotel, day, days);
    var legs := LegsUpTo(route.1, cfg, provider, stops, |stops|);
    var asks := AsksUpTo(legs.1, cfg, provider, stops, alts, |stops|);
    AsksOptionsFit(asks.0, cfg.haversine, stops, alts);
    FoldPlaces(Tally([], DayStartMinutes, 0.0, 0, m), stops, legs.0, alts, asks.0);
  }

  /** A day's stops: with a main hotel, the route starts there when the day
      has places and the hotel closes every day but the last; every other
      place is visited exactly as often as it is among the day's places. */
  lemma StopsCover(c: Cache, cfg: Config, provider: Provider, daily: seq<Place>, hotel: Option<Place>, day: int, days: int)
    requires WellFormed(c, cfg.maxSize)
    ensures var stops := Stops(Route(c, cfg, provider, daily, hotel).0, hotel, day, days);
      && (forall p :: hotel != Some(p) ==> multiset(stops)[p] == multiset(daily)[p])
      && (hotel.None? ==> multiset(stops) == multiset(daily))
      && (hotel.Some? && daily != [] ==> stops[0] == hotel.value)
      && (hotel.Some? && day < days ==> stops[|stops| - 1] == hotel.value)
  {
    RouteVisitsAll(c, cfg, provider, daily, hotel);
    StopsOfRoute(Route(c, cfg, provider, daily, hotel).0, daily, hotel, day, days);
  }

  /** StopsCover for any route that visits the day's places as the optimizer's
      route does. */
  lemma StopsOfRoute(route: seq<Place>, daily: seq<Place>, hotel: Option<Place>, day: int, days: int)
    requires daily == [] ==> route == []
    requires daily != [] && hotel.Some? ==>
      |route| == |daily| + 1 && route[0] == hotel.value && multiset(route[1..]) == multiset(daily)
    requires daily != [] && hotel.None? ==> multiset(route) == multiset(daily)
    ensures var stops := Stops(route, hotel, day, days);
      && (forall p :: hotel != Some(p) ==> multiset(stops)[p] == multiset(daily)[p])
      && (hotel.None? ==> multiset(stops) == multiset(daily))
      && (hotel.Some? && daily != [] ==> stops[0] == hotel.value)
      && (hotel.Some? && day < days ==> stops[|stops| - 1] == hotel.value)
  {
    if hotel.Some? && daily != [] {
      assert route == [hotel.value] + route[1..];
    }
  }

  /** A day's printed schedule: entry i is stop i at the time and in the slot
      the walked legs give it; the summary is the legs' distance rounded to two
      places and their minutes; every leg is a straight-line walking estimate. */
  lemma DaySchedule(c: Cache, cfg: Config, provider: Provider, clusters: seq<seq<Place>>, hotel: Option<Place>,
                    day: nat, days: int, alts: seq<Place>, m: Annotations)
    requires CacheValid(c, cfg) && 1 <= day
    ensures var route := Route(c, cfg, provider, DailyPlaces(clusters, day), hotel);
      var stops := Stops(route.0, hotel, day, days);
      var legs := LegsUpTo(route.1, cfg, provider, stops, |stops|).0;
      var plan := PlanDaySpec(c, cfg, provider, clusters, hotel, day, days, alts, m).0;
      && |plan.schedule| == |stops| && |legs| == Elapsed(|stops|)
      && (forall i :: 0 <= i < |stops| ==> ItemAt(plan.schedule[i], stops, legs, alts, i))
      && plan.summary == Summary(Round2(LegKm(legs, |legs|)), LegMinutes(legs, |legs|))
      && AllWalked(legs)
  {
    var route := Route(c, cfg, provider, DailyPlaces(clusters, day), hotel);
    var stops := Stops(route.0, hotel, day, days);
    var legs := LegsUpTo(route.1, cfg, provider, stops, |stops|);
    var asks := AsksUpTo(legs.1, cfg, provider, stops, alts, |stops|);
    AsksOptionsFit(asks.0, cfg.haversine, stops, alts);
    ScheduleShape(Tally([], DayStartMinutes, 0.0, 0, m), stops, legs.0, alts, asks.0);
    LegsAreWalks(route.1, cfg, provider, stops, |stops|);
  }

  // ---------------------------------------------------------------------
  // The whole trip

  /** Days 1..n, each continuing from the cache and the alternatives' records
      the day before left. */
  function DaysUpTo(c: Cache, cfg: Config, provider: Provider, clusters: seq<seq<Place>>, hotel: Option<Place>,
                    days: int, alts: seq<Place>, m: Annotations, n: nat): (r: (seq<DayPlan>, Annotations, Cache))
    requires WellFormed(c, cfg.maxSize)
    ensures |r.0| == n
    ensures WellFormed(r.2, cfg.maxSize)
    ensures CacheValid(c, cfg) ==> CacheValid(r.2, cfg)
    ensures Numbered(r.0)
    decreases n
  {
    if n == 0 then ([], m, c)
    else
      var done := DaysUpTo(c, cfg, provider, clusters, hotel, days, alts, m, n - 1);
      var d := PlanDaySpec(done.2, cfg, provider, clusters, hotel, n, days, alts, done.1);
      NumberedSnoc(done.0, d.0);
      (done.0 + [d.0], d.1, d.2)
  }

  /** What `_create_itinerary_impl` returns and leaves behind. */
  datatype Outcome = Outcome(itinerary: seq<DayPlan>, annotations: Annotations,
                             clustered: Option<seq<seq<Place>>>, cache: Cache)

  /** The itinerary for `days` days: mix the activities, restaurants and
      cafes, cluster them into one group per day, plan each day, and attach
      the clustering report to day 1. With fewer than one day nothing happens
      and the clusters of an earlier call stay. */
  function ItinerarySpec(clustered: Option<seq<seq<Place>>>, c: Cache, cfg: Config, provider: Provider,
                         places: seq<Place>, days: int, alts: seq<Place>): (r: Outcome)
    requires WellFormed(c, cfg.maxSize)
    ensures WellFormed(r.cache, cfg.maxSize)
    ensures CacheValid(c, cfg) ==> CacheValid(r.cache, cfg)
  {
    if days < 1 then Outcome([], map[], clustered, c)
    else
      var mixed := Mix(places);
      var clusters := KMeans.Clusters(cfg.haversine, mixed, days);
      var plans := DaysUpTo(c, cfg, provider, clusters, MainHotel(places), days, alts, map[], days);
      Outcome(plans.0[0 := plans.0[0].(clustering := Some(ClusteringReport(mixed, days, clusters)))],
              plans.1, Some(clusters), plans.2)
  }

  /** Day d + 1 is entry d, and no day carries a clustering report yet. */
  ghost predicate Numbered(plans: seq<DayPlan>) {
    forall d :: 0 <= d < |plans| ==> plans[d].day == d + 1 && plans[d].clustering.None?
  }

  lemma NumberedSnoc(plans: seq<DayPlan>, plan: DayPlan)
    requires Numbered(plans) && plan.day == |plans| + 1 && plan.clustering.None?
    ensures Numbered(plans + [plan])
  {
    assert forall d :: 0 <= d < |plans| ==> (plans + [plan])[d] == plans[d];
  }

  /** The plans, records and cache after days 1..n. */
  ghost predicate DaysReached(c: Cache, cfg: Config, provider: Provider, clusters: seq<seq<Place>>, hotel: Option<Place>,
                              days: int, alts: seq<Place>, n: nat, plans: seq<DayPlan>, written: Annotations, after: Cache)
    requires WellFormed(c, cfg.maxSize)
  {
    DaysUpTo(c, cfg, provider, clusters, hotel, days, alts, map[], n) == (plans, written, after)
  }

  /** One more day: its plan follows the earlier ones, made from the cache
      and the records they left. */
  lemma DaysSnoc(c: Cache, cfg: Config, provider: Provider, clusters: seq<seq<Place>>, hotel: Option<Place>,
                 days: int, alts: seq<Place>, n: nat, plans: seq<DayPlan>, written: Annotations, before: Cache,
                 plan: DayPlan, written': Annotations, after: Cache)
    requires WellFormed(c, cfg.maxSize) && WellFormed(before, cfg.maxSize)
    requires DaysReached(c, cfg, provider, clusters, hotel, days, alts, n, plans, written, before)
    requires plan == PlanDaySpec(before, cfg, provider, clusters, hotel, n + 1, days, alts, written).0
    requires written' == PlanDaySpec(before, cfg, provider, clusters, hotel, n + 1, days, alts, written).1
    requires after == PlanDaySpec(before, cfg, provider, clusters, hotel, n + 1, days, alts, written).2
    ensures DaysReached(c, cfg, provider, clusters, hotel, days, alts, n + 1, plans + [plan], written', after)
  {
  }

  /** One plan per day, numbered from 1, with the clustering report on the
      first day only; the clusters are kept for the debug response. Without a
      day there is no plan and nothing changes. */
  lemma ItineraryDays(clustered: Option<seq<seq<Place>>>, c: Cache, cfg: Config, provider: Provider,
                      places: seq<Place>, days: int, alts: seq<Place>)
    requires WellFormed(c, cfg.maxSize)
    ensures var r := ItinerarySpec(clustered, c, cfg, provider, places, days, alts);
      && (days < 1 ==> r == Outcome([], map[], clustered, c))
      && (1 <= days ==>
            var clusters := KMeans.Clusters(cfg.haversine, Mix(places), days);
            && |r.itinerary| == days
            && (forall d :: 0 <= d < days ==> r.itinerary[d].day == d + 1)
            && r.itinerary[0].clustering == Some(ClusteringReport(Mix(places), days, clusters))
            && (forall d :: 1 <= d < days ==> r.itinerary[d].clustering.None?)
            && r.clustered == Some(clusters))
  {
    if 1 <= days {
      var clusters := KMeans.Clusters(cfg.haversine, Mix(places), days);
      ReportOnFirstDay(DaysUpTo(c, cfg, provider, clusters, MainHotel(places), days, alts, map[], days).0,
                       ClusteringReport(Mix(places), days, clusters));
    }
  }

  /** The outcome from its parts: the days planned over the clusters of the
      mixed places, the report attached to day 1. */
  lemma ItineraryFromDays(clustered: Option<seq<seq<Place>>>, c: Cache, cfg: Config, provider: Provider,
                          places: seq<Place>, days: int, alts: seq<Place>, clusters: seq<seq<Place>>,
                          plans: seq<DayPlan>, written: Annotations, after: Cache, report: ClusteringDebug)
    requires WellFormed(c, cfg.maxSize) && 1 <= days
    requires clusters == KMeans.Clusters(cfg.haversine, Mix(places), days)
    requires report == ClusteringReport(Mix(places), days, clusters)
    requires DaysReached(c, cfg, provider, clusters, MainHotel(places), days, alts, days, plans, written, after)
    ensures plans != []
    ensures ItinerarySpec(clustered, c, cfg, provider, places, days, alts).itinerary == plans[0 := plans[0].(clustering := Some(report))]
    ensures ItinerarySpec(clustered, c, cfg, provider, places, days, alts).annotations == written
    ensures ItinerarySpec(clustered, c, cfg, provider, places, days, alts).clustered == Some(clusters)
    ensures ItinerarySpec(clustered, c, cfg, provider, places, days, alts).cache == after
  {
  }

  lemma ReportOnFirstDay(plans: seq<DayPlan>, report: ClusteringDebug)
    requires Numbered(plans) && plans != []
    ensures var r := plans[0 := plans[0].(clustering := Some(report))];
      && |r| == |plans|
      && (forall d :: 0 <= d < |r| ==> r[d].day == d + 1)
      && r[0].clustering == Some(report)
      && (forall d :: 1 <= d < |r| ==> r[d].clustering.None?)
  {
  }

  /** The places a list of plans schedules, each as often as it is scheduled. */
  ghost function Scheduled(plans: seq<DayPlan>): multiset<Place>
    decreases |plans|
  {
    if plans == [] then multiset{} else Scheduled(plans[..|plans| - 1]) + multiset(Places(plans[|plans| - 1].schedule))
  }

  lemma {:induction false} ScheduledBySchedules(a: seq<DayPlan>, b: seq<DayPlan>)
    requires |a| == |b| && forall i :: 0 <= i < |a| ==> a[i].schedule == b[i].schedule
    ensures Scheduled(a) == Scheduled(b)
    decreases |a|
  {
    if a != [] {
      ScheduledBySchedules(a[..|a| - 1], b[..|b| - 1]);
    }
  }

  /** The day groups of days 1..n, one after the other. */
  function DailyUpTo(clusters: seq<seq<Place>>, n: nat): seq<Place> {
    if n == 0 then [] else DailyUpTo(clusters, n - 1) + DailyPlaces(clusters, n)
  }

  lemma {:induction false} DailyUpToIsConcat(clusters: seq<seq<Place>>, n: nat)
    ensures DailyUpTo(clusters, n) == Concat(clusters[..Min(n, |clusters|)])
    decreases n
  {
    if n > 0 {
      DailyUpToIsConcat(clusters, n - 1);
      if n <= |clusters| {
        assert clusters[..n][..n - 1] == clusters[..n - 1];
      } else {
        assert DailyPlaces(clusters, n) == [];
      }
    }
  }

  lemma ScheduledSnoc(plans: seq<DayPlan>, plan: DayPlan)
    ensures Scheduled(plans + [plan]) == Scheduled(plans) + multiset(Places(plan.schedule))
  {
    assert (plans + [plan])[..|plans|] == plans;
  }

  /** Two counts agree on every place but the main hotel. */
  ghost predicate AgreeBesides(a: multiset<Place>, b: multiset<Place>, hotel: Option<Place>) {
    forall p :: hotel != Some(p) ==> a[p] == b[p]
  }

  /** Apart from the main hotel, a day schedules each place exactly as often
      as its day group holds it. */
  lemma DaySights(c: Cache, cfg: Config, provider: Provider, clusters: seq<seq<Place>>, hotel: Option<Place>,
                  day: nat, days: int, alts: seq<Place>, m: Annotations)
    requires WellFormed(c, cfg.maxSize) && 1 <= day
    ensures AgreeBesides(multiset(Places(PlanDaySpec(c, cfg, provider, clusters, hotel, day, days, alts, m).0.schedule)),
                         multiset(DailyPlaces(clusters, day)), hotel)
  {
    DayVisitsStops(c, cfg, provider, clusters, hotel, day, days, alts, m);
    StopsCover(c, cfg, provider, DailyPlaces(clusters, day), hotel, day, days);
  }

  lemma CoverStep(before: multiset<Place>, daily: seq<Place>, today: seq<Place>, groups: seq<Place>, hotel: Option<Place>)
    requires AgreeBesides(before, multiset(groups), hotel)
    requires AgreeBesides(multiset(today), multiset(daily), hotel)
    ensures AgreeBesides(before + multiset(today), multiset(groups + daily), hotel)
  {
  }

  /** Apart from the main hotel, days 1..n schedule each place exactly as
      often as the day groups 1..n hold it. */
  lemma {:induction false} DaysCover(c: Cache, cfg: Config, provider: Provider, clusters: seq<seq<Place>>,
                                     hotel: Option<Place>, days: int, alts: seq<Place>, m: Annotations, n: nat)
    requires WellFormed(c, cfg.maxSize)
    ensures AgreeBesides(Scheduled(DaysUpTo(c, cfg, provider, clusters, hotel, days, alts, m, n).0),
                         multiset(DailyUpTo(clusters, n)), hotel)
    decreases n
  {
    if n == 0 {
      assert DaysUpTo(c, cfg, provider, clusters, hotel, days, alts, m, n).0 == [];
    } else {
      DaysCover(c, cfg, provider, clusters, hotel, days, alts, m, n - 1);
      DaySights(DaysUpTo(c, cfg, provider, clusters, hotel, days, alts, m, n - 1).2, cfg, provider, clusters, hotel, n, days, alts,
                DaysUpTo(c, cfg, provider, clusters, hotel, days, alts, m, n - 1).1);
      ScheduledSnoc(DaysUpTo(c, cfg, provider, clusters, hotel, days, alts, m, n - 1).0,
        PlanDaySpec(DaysUpTo(c, cfg, provider, clusters, hotel, days, alts, m, n - 1).2, cfg, provider, clusters, hotel, n, days, alts,
                    DaysUpTo(c, cfg, provider, clusters, hotel, days, alts, m, n - 1).1).0);
      CoverStep(Scheduled(DaysUpTo(c, cfg, provider, clusters, hotel, days, alts, m, n - 1).0), DailyPlaces(clusters, n),
        Places(PlanDaySpec(DaysUpTo(c, cfg, provider, clusters, hotel, days, alts, m, n - 1).2, cfg, provider, clusters, hotel, n, days, alts,
                           DaysUpTo(c, cfg, provider, clusters, hotel, days, alts, m, n - 1).1).0.schedule),
        DailyUpTo(clusters, n - 1), hotel);
    }
  }

  /** Every activity, restaurant and cafe of the input is scheduled exactly as
      often as it occurs in the input, and nothing else is scheduled but the
      main hotel. */
  lemma ItineraryCovers(clustered: Option<seq<seq<Place>>>, c: Cache, cfg: Config, provider: Provider,
                        places: seq<Place>, days: int, alts: seq<Place>)
    requires WellFormed(c, cfg.maxSize) && 1 <= days
    ensures AgreeBesides(Scheduled(ItinerarySpec(clustered, c, cfg, provider, places, days, alts).itinerary),
                         multiset(OfKinds(places, ActivityKinds)) + multiset(OfKinds(places, RestaurantKinds)) +
                         multiset(OfKinds(places, CafeKinds)),
                         MainHotel(places))
  {
    var clusters := KMeans.Clusters(cfg.haversine, Mix(places), days);
    ScheduledBySchedules(ItinerarySpec(clustered, c, cfg, provider, places, days, alts).itinerary,
                         DaysUpTo(c, cfg, provider, clusters, MainHotel(places), days, alts, map[], days).0);
    DaysCover(c, cfg, provider, clusters, MainHotel(places), days, alts, map[], days);
    GroupsCover(Scheduled(ItinerarySpec(clustered, c, cfg, provider, places, days, alts).itinerary), cfg.haversine, places, days);
  }

  /** The day groups together are the mixed places, which are the three
      buckets. */
  lemma GroupsCover(s: multiset<Place>, h: Haversine, places: seq<Place>, days: int)
    requires 1 <= days
    requires AgreeBesides(s, multiset(DailyUpTo(KMeans.Clusters(h, Mix(places), days), days)), MainHotel(places))
    ensures AgreeBesides(s, multiset(OfKinds(places, ActivityKinds)) + multiset(OfKinds(places, RestaurantKinds)) +
                            multiset(OfKinds(places, CafeKinds)), MainHotel(places))
  {
    var clusters := KMeans.Clusters(h, Mix(places), days);
    DailyUpToIsConcat(clusters, days);
    assert clusters[..Min(days, |clusters|)] == clusters;
    KMeans.ClustersPartition(h, Mix(places), days);
    MixIsTheThreeBuckets(places);
  }

  // ---------------------------------------------------------------------
  // Facts the service's loops need

  lemma {:induction false} WriteAllPrefix(m: Annotations, keys: seq<nat>, a: seq<Option<TravelInfo>>, b: seq<Option<TravelInfo>>, n: nat)
    requires n <= |keys| && n <= |a| && n <= |b| && a[..n] == b[..n]
    ensures WriteAll(m, keys, a, n) == WriteAll(m, keys, b, n)
    decreases n
  {
    if n > 0 {
      assert a[..n - 1] == a[..n][..n - 1] && b[..n - 1] == b[..n][..n - 1];
      assert a[n - 1] == a[..n][n - 1];
      WriteAllPrefix(m, keys, a, b, n - 1);
    }
  }

  lemma WriteAllSnoc(m: Annotations, keys: seq<nat>, values: seq<Option<TravelInfo>>, v: Option<TravelInfo>, n: nat)
    requires |values| == n < |keys|
    ensures WriteAll(m, keys, values + [v], n + 1) == WriteAll(m, keys, values, n)[keys[n] := v]
  {
    WriteAllPrefix(m, keys, values + [v], values, n);
  }

  lemma AnnotateSnoc(c: Cache, cfg: Config, provider: Provider, alts: seq<Place>, idx: seq<nat>, prev: Option<Place>,
                     records: seq<Option<TravelInfo>>, before: Cache, j: nat, record: Option<TravelInfo>, after: Cache)
    requires WellFormed(c, cfg.maxSize) && j < |idx| && forall k :: 0 <= k < |idx| ==> idx[k] < |alts|
    requires records == AnnotateUpTo(c, cfg, provider, alts, idx, prev, j).0
    requires before == AnnotateUpTo(c, cfg, provider, alts, idx, prev, j).1
    requires record == AnnotateOne(before, cfg, provider, alts[idx[j]], prev).0
    requires after == AnnotateOne(before, cfg, provider, alts[idx[j]], prev).1
    ensures records + [record] == AnnotateUpTo(c, cfg, provider, alts, idx, prev, j + 1).0
    ensures after == AnnotateUpTo(c, cfg, provider, alts, idx, prev, j + 1).1
  {
  }

  lemma {:induction false} FoldPrefix(t: Tally, stops: seq<Place>, legs: seq<Estimate>, alts: seq<Place>,
                                      a: seq<Ask>, b: seq<Ask>, n: nat)
    requires n <= |stops| && n <= |a| && n <= |b| && |legs| == Elapsed(|stops|) && a[..n] == b[..n]
    ensures Fold(t, stops, legs, alts, a, n) == Fold(t, stops, legs, alts, b, n)
    decreases n
  {
    if n > 0 {
      assert a[..n - 1] == a[..n][..n - 1] && b[..n - 1] == b[..n][..n - 1];
      assert a[n - 1] == a[..n][n - 1];
      FoldPrefix(t, stops, legs, alts, a, b, n - 1);
    }
  }

  /** The answers at stop i, gathered as the schedule loop gathers them. */
  lemma AskedAt(before: Cache, asked: Cache, cfg: Config, provider: Provider, stops: seq<Place>, alts: seq<Place>, i: nat,
                options: Option<TravelOptions>, prev: Option<Place>)
    requires WellFormed(before, cfg.maxSize) && i < |stops|
    requires options == OptionsInto(before, cfg, provider, stops, i).0
    requires asked == OptionsInto(before, cfg, provider, stops, i).1
    requires prev == Previous(stops, i)
    ensures var idx := AlternativesOf(alts, stops[i].kind);
      var a := AnnotateUpTo(asked, cfg, provider, alts, idx, prev, |idx|);
      Ask(options, a.0) == AskAt(before, cfg, provider, stops, alts, i).0 && a.1 == AskAt(before, cfg, provider, stops, alts, i).1
  {
  }

  lemma AsksSnoc(c: Cache, cfg: Config, provider: Provider, stops: seq<Place>, alts: seq<Place>, asks: seq<Ask>,
                 before: Cache, i: nat, ask: Ask, after: Cache)
    requires WellFormed(c, cfg.maxSize) && i < |stops|
    requires asks == AsksUpTo(c, cfg, provider, stops, alts, i).0
    requires before == AsksUpTo(c, cfg, provider, stops, alts, i).1
    requires ask == AskAt(before, cfg, provider, stops, alts, i).0
    requires after == AskAt(before, cfg, provider, stops, alts, i).1
    ensures asks + [ask] == AsksUpTo(c, cfg, provider, stops, alts, i + 1).0
    ensures after == AsksUpTo(c, cfg, provider, stops, alts, i + 1).1
  {
  }

  lemma FoldSnoc(t: Tally, stops: seq<Place>, legs: seq<Estimate>, alts: seq<Place>, asks: seq<Ask>, ask: Ask, i: nat)
    requires |asks| == i < |stops| && |legs| == Elapsed(|stops|)
    ensures Fold(t, stops, legs, alts, asks + [ask], i + 1) == Step(Fold(t, stops, legs, alts, asks, i), stops, legs, alts, ask, i)
  {
    FoldPrefix(t, stops, legs, alts, asks + [ask], asks, i);
  }

  /** A loop pass that computed each part of the tally as Step does. */
  lemma StepOf(t: Tally, stops: seq<Place>, legs: seq<Estimate>, alts: seq<Place>, ask: Ask, i: nat,
               draft: Draft, clock: int, totalDistance: real, totalTime: int, annotations: Annotations)
    requires i < |stops| && |legs| == Elapsed(|stops|)
    requires var idx := AlternativesOf(alts, stops[i].kind);
      && draft == Draft(t.clock + MinutesInto(legs, i), stops[i], ask.options, idx)
      && clock == draft.clock + StayMinutes
      && totalDistance == t.totalDistance + KmInto(legs, i) && totalTime == t.totalTime + MinutesInto(legs, i)
      && annotations == WriteAll(t.annotations, idx, ask.records, Min(|idx|, |ask.records|))
    ensures Tally(t.drafts + [draft], clock, totalDistance, totalTime, annotations) == Step(t, stops, legs, alts, ask, i)
  {
  }

  lemma RenderedSnoc(ds: seq<Draft>, d: Draft)
    ensures Rendered(ds + [d]) == Rendered(ds) + [Render(|ds|, d)]
  {
    var e := ds + [d];
    assert e[..|e| - 1] == ds && e[|e| - 1] == d;
  }

  // ---------------------------------------------------------------------
  // The service

  /** The `while activities or restaurants or cafes` loop. */
  method MixPlaces(activities: seq<Place>, restaurants: seq<Place>, cafes: seq<Place>) returns (mixed: seq<Place>)
    ensures mixed == MixFrom([], activities, restaurants, cafes)
  {
    var a, r, c := activities, restaurants, cafes;
    mixed := [];
    while a != [] || r != [] || c != []
      invariant MixFrom(mixed, a, r, c) == MixFrom([], activities, restaurants, cafes)
      decreases |a| + |r| + |c|
    {
      ghost var round := MixRound(mixed, a, r, c);
      if a != [] { mixed := mixed + [a[0]]; a := a[1..]; }
      if r != [] { mixed := mixed + [r[0]]; r := r[1..]; }
      if a != [] { mixed := mixed + [a[0]]; a := a[1..]; }
      if c != [] { mixed := mixed + [c[0]]; c := c[1..]; }
      if r != [] { mixed := mixed + [r[0]]; r := r[1..]; }
      assert (mixed, a, r, c) == round;
    }
  }

  /** What `create_itinerary_async` returns: the itinerary alone, or with the
      debug block. */
  datatype Response =
    | Plain(itinerary: seq<DayPlan>)
    | WithDebug(itinerary: seq<DayPlan>, totalSelectedPlaces: nat, clustering: Option<seq<seq<Place>>>, allPlaces: seq<Place>)

  class ItineraryService {
    const optimizer: RouteOptimizer
    /** `self.clustered_places`: None until a call has planned a day, as the
        attribute does not exist before. */
    var clustered: Option<seq<seq<Place>>>

    ghost predicate Valid()
      reads this, optimizer
    {
      optimizer.Valid()
    }

    constructor(useAzureMaps: bool, haversine: Haversine)
      ensures Valid() && clustered.None? && fresh(optimizer)
      ensures optimizer.State() == Cache([], map[])
      ensures optimizer.useAzureMaps == useAzureMaps && optimizer.haversine == haversine
      ensures optimizer.cacheMaxSize == DefaultCacheMaxSize
    {
      optimizer := new RouteOptimizer(useAzureMaps, haversine);
      clustered := None;
    }

    /** The distance tasks: a walking estimate for each leg of the day, in
        order. */
    method WalkLegs(stops: seq<Place>, provider: Provider) returns (legs: seq<Estimate>)
      requires Valid()
      modifies optimizer
      ensures Valid()
      ensures legs == LegsUpTo(old(optimizer.State()), optimizer.Settings(), provider, stops, |stops|).0
      ensures optimizer.State() == LegsUpTo(old(optimizer.State()), optimizer.Settings(), provider, stops, |stops|).1
    {
      ghost var c0 := optimizer.State();
      ghost var cfg := optimizer.Settings();
      legs := [];
      for i := 0 to |stops|
        invariant Valid()
        invariant legs == LegsUpTo(c0, cfg, provider, stops, i).0
        invariant optimizer.State() == LegsUpTo(c0, cfg, provider, stops, i).1
      {
        if i > 0 {
          var prev := stops[i - 1];
          var result := optimizer.CalculateDistance(Some(prev.lat), Some(prev.lon), Some(stops[i].lat), Some(stops[i].lon),
                                                    "walk", provider);
          legs := legs + [result];
        }
      }
    }

    /** Both transport options for one leg, walk first. */
    method TravelChoices(from: Place, to: Place, provider: Provider) returns (options: TravelOptions)
      requires Valid()
      modifies optimizer
      ensures Valid()
      ensures options == LegOptions(old(optimizer.State()), optimizer.Settings(), provider, from, to).0
      ensures optimizer.State() == LegOptions(old(optimizer.State()), optimizer.Settings(), provider, from, to).1
    {
      var walk := optimizer.CalculateDistance(Some(from.lat), Some(from.lon), Some(to.lat), Some(to.lon), "walk", provider);
      var public := optimizer.CalculateDistance(Some(from.lat), Some(from.lon), Some(to.lat), Some(to.lon), "public", provider);
      options := TravelOptions(Info(walk, "walk"), Info(public, "public"));
    }

    /** The `travel_from_previous` record of one alternative. */
    method TravelFromPrevious(alt: Place, prev: Option<Place>, provider: Provider) returns (record: Option<TravelInfo>)
      requires Valid()
      modifies optimizer
      ensures Valid()
      ensures record == AnnotateOne(old(optimizer.State()), optimizer.Settings(), provider, alt, prev).0
      ensures optimizer.State() == AnnotateOne(old(optimizer.State()), optimizer.Settings(), provider, alt, prev).1
    {
      record := None;
      if prev.Some? {
        var straight := optimizer.StraightDistance(prev.value.lat, prev.value.lon, alt.lat, alt.lon);
        var mode := if straight < WalkingRangeKm then "walk" else "public";
        var result := optimizer.CalculateDistance(Some(prev.value.lat), Some(prev.value.lon), Some(alt.lat), Some(alt.lon),
                                                  mode, provider);
        record := Some(Info(result, mode));
      }
    }

    /** Writes `travel_from_previous` into each offered alternative. */
    method AnnotateAlternatives(alts: seq<Place>, idx: seq<nat>, prev: Option<Place>, m: Annotations, provider: Provider)
      returns (annotations: Annotations)
      requires Valid() && forall j :: 0 <= j < |idx| ==> idx[j] < |alts|
      modifies optimizer
      ensures Valid()
      ensures var a := AnnotateUpTo(old(optimizer.State()), optimizer.Settings(), provider, alts, idx, prev, |idx|);
        annotations == WriteAll(m, idx, a.0, |idx|) && optimizer.State() == a.1
    {
      ghost var c0 := optimizer.State();
      ghost var cfg := optimizer.Settings();
      ghost var records: seq<Option<TravelInfo>> := [];
      annotations := m;
      for j := 0 to |idx|
        invariant Valid() && |records| == j
        invariant records == AnnotateUpTo(c0, cfg, provider, alts, idx, prev, j).0
        invariant optimizer.State() == AnnotateUpTo(c0, cfg, provider, alts, idx, prev, j).1
        invariant annotations == WriteAll(m, idx, records, j)
      {
        ghost var before := optimizer.State();
        var record := TravelFromPrevious(alts[idx[j]], prev, provider);
        AnnotateSnoc(c0, cfg, provider, alts, idx, prev, records, before, j, record, optimizer.State());
        WriteAllSnoc(m, idx, records, record, j);
        annotations := annotations[idx[j] := record];
        records := records + [record];
      }
    }
  
    /** The printed part of a schedule entry: start time, the clock moved
        past the 90-minute stay, end time, and the slot of the start hour. */
    static method ScheduleEntry(i: nat, clock: int, place: Place, options: Option<TravelOptions>, alternatives: seq<nat>)
      returns (item: ScheduleItem, next: int)
      ensures item == Render(i, Draft(clock, place, options, alternatives)) && next == clock + StayMinutes
    {
      var start := Clock(clock);
      next := clock + StayMinutes;
      var end := Clock(next);
      var hour := HourOf(start.Text());
      var slot := SlotOf(hour);
      var travel := if options.Some? then Some(options.value.walk) else None;
      item := ScheduleItem(i + 1, slot, start, end, place, StayMinutes, travel, options, alternatives);
    }

    /** The schedule loop of one day: for each stop, advance the clock by the
        leg into it and offer both options for that leg, print the 90-minute
        stay, pick the slot from the printed start hour, and annotate the
        offered alternatives. */
    method BuildSchedule(stops: seq<Place>, legs: seq<Estimate>, alts: seq<Place>, m: Annotations, provider: Provider)
      returns (items: seq<ScheduleItem>, totalDist: real, totalTime: int, annotations: Annotations)
      requires Valid() && |legs| == Elapsed(|stops|)
      modifies optimizer
      ensures Valid()
      ensures var asks := AsksUpTo(old(optimizer.State()), optimizer.Settings(), provider, stops, alts, |stops|);
        var f := Fold(Tally([], DayStartMinutes, 0.0, 0, m), stops, legs, alts, asks.0, |stops|);
        && items == Rendered(f.drafts) && totalDist == f.totalDistance && totalTime == f.totalTime
        && annotations == f.annotations && optimizer.State() == asks.1
    {
      ghost var c0 := optimizer.State();
      ghost var cfg := optimizer.Settings();
      ghost var t0 := Tally([], DayStartMinutes, 0.0, 0, m);
      ghost var asks: seq<Ask> := [];
      ghost var tally := t0;
      var clock := DayStartMinutes;
      totalDist, totalTime, items, annotations := 0.0, 0, [], m;
      for i := 0 to |stops|
        invariant Valid() && |asks| == i && |tally.drafts| == i
        invariant asks == AsksUpTo(c0, cfg, provider, stops, alts, i).0
        invariant optimizer.State() == AsksUpTo(c0, cfg, provider, stops, alts, i).1
        invariant tally == Fold(t0, stops, legs, alts, asks, i)
        invariant clock == tally.clock && totalDist == tally.totalDistance
        invariant totalTime == tally.totalTime && annotations == tally.annotations
        invariant items == Rendered(tally.drafts)
      {
        ghost var before := optimizer.State();
        ghost var drafts := tally.drafts;
        var item;
        ghost var ask, draft;
        item, clock, totalDist, totalTime, annotations, ask, draft, tally :=
          VisitStop(stops, legs, alts, i, tally, clock, totalDist, totalTime, annotations, provider);
        AsksSnoc(c0, cfg, provider, stops, alts, asks, before, i, ask, optimizer.State());
        FoldSnoc(t0, stops, legs, alts, asks, ask, i);
        RenderedSnoc(drafts, draft);
        items := items + [item];
        asks := asks + [ask];
      }
    }

    /** One pass of the schedule loop: the leg into stop i, both options for
        it, the printed entry and the alternatives' records. */
    method VisitStop(stops: seq<Place>, legs: seq<Estimate>, alts: seq<Place>, i: nat, ghost t: Tally,
                     clock: int, totalDist: real, totalTime: int, annotations: Annotations, provider: Provider)
      returns (item: ScheduleItem, clock': int, totalDist': real, totalTime': int, annotations': Annotations,
               ghost ask: Ask, ghost draft: Draft, ghost t': Tally)
      requires Valid() && i < |stops| && |legs| == Elapsed(|stops|)
      requires clock == t.clock && totalDist == t.totalDistance && totalTime == t.totalTime && annotations == t.annotations
      modifies optimizer
      ensures Valid()
      ensures ask == AskAt(old(optimizer.State()), optimizer.Settings(), provider, stops, alts, i).0
      ensures optimizer.State() == AskAt(old(optimizer.State()), optimizer.Settings(), provider, stops, alts, i).1
      ensures t' == Step(t, stops, legs, alts, ask, i) && t'.drafts == t.drafts + [draft]
      ensures clock' == t'.clock && totalDist' == t'.totalDistance && totalTime' == t'.totalTime && annotations' == t'.annotations
      ensures item == Render(i, draft)
    {
      ghost var before := optimizer.State();
      ghost var cfg := optimizer.Settings();
      var options: Option<TravelOptions> := None;
      var prev: Option<Place> := None;
      clock', totalDist', totalTime' := clock, totalDist, totalTime;
      if i > 0 {
        var leg := legs[i - 1];
        clock' := clock' + leg.timeMinutes;
        totalDist' := totalDist' + leg.distanceKm;
        totalTime' := totalTime' + leg.timeMinutes;
        var choices := TravelChoices(stops[i - 1], stops[i], provider);
        options := Some(choices);
        prev := Some(stops[i - 1]);
      }
      ghost var asked := optimizer.State();
      var alternatives := AlternativesOf(alts, stops[i].kind);
      annotations' := AnnotateAlternatives(alts, alternatives, prev, annotations, provider);
      draft := Draft(clock', stops[i], options, alternatives);
      item, clock' := ScheduleEntry(i, clock', stops[i], options, alternatives);
      ask := Ask(options, AnnotateUpTo(asked, cfg, provider, alts, alternatives, prev, |alternatives|).0);
      AskedAt(before, asked, cfg, provider, stops, alts, i, options, prev);
      ghost var m := MinutesInto(legs, i);
      assert draft == Draft(t.clock + m, stops[i], ask.options, alternatives);
      assert |ask.records| == |alternatives|;
      assert annotations' == WriteAll(t.annotations, alternatives, ask.records, Min(|alternatives|, |ask.records|));
      assert clock' == draft.clock + StayMinutes && totalTime' == t.totalTime + m;
      assert totalDist' == t.totalDistance + KmInto(legs, i);
      t' := Tally(t.drafts + [draft], clock', totalDist', totalTime', annotations');
      StepOf(t, stops, legs, alts, ask, i, draft, clock', totalDist', totalTime', annotations');
    }

    /** `create_itinerary_async`: the itinerary alone, or with the debug block
        holding the number of selected places, the clusters this service last
        formed (None before any), and the places as given. */
    method CreateItineraryAsync(places: seq<Place>, days: int, alts: seq<Place>, includeDebug: bool, provider: Provider)
      returns (response: Response, annotations: Annotations)
      requires Valid()
      modifies this, optimizer
      ensures Valid()
      ensures response.WithDebug? <==> includeDebug
      ensures response.itinerary == ItinerarySpec(old(clustered), old(optimizer.State()), optimizer.Settings(), provider, places, days, alts).itinerary
      ensures annotations == ItinerarySpec(old(clustered), old(optimizer.State()), optimizer.Settings(), provider, places, days, alts).annotations
      ensures includeDebug ==> response.totalSelectedPlaces == |places| && response.allPlaces == places
      ensures includeDebug ==> response.clustering == ItinerarySpec(old(clustered), old(optimizer.State()), optimizer.Settings(), provider, places, days, alts).clustered
      ensures clustered == ItinerarySpec(old(clustered), old(optimizer.State()), optimizer.Settings(), provider, places, days, alts).clustered
      ensures optimizer.State() == ItinerarySpec(old(clustered), old(optimizer.State()), optimizer.Settings(), provider, places, days, alts).cache
    {
      var itinerary;
      itinerary, annotations := CreateItineraryImpl(places, days, alts, provider);
      if includeDebug {
        response := WithDebug(itinerary, |places|, clustered, places);
      } else {
        response := Plain(itinerary);
      }
    }

    /** `_create_itinerary_impl(places, duration_days, alternative_places)`:
        the itinerary and the records written into the alternatives. */
    method CreateItineraryImpl(places: seq<Place>, days: int, alts: seq<Place>, provider: Provider)
      returns (itinerary: seq<DayPlan>, annotations: Annotations)
      requires Valid()
      modifies this, optimizer
      ensures Valid()
      ensures itinerary == ItinerarySpec(old(clustered), old(optimizer.State()), optimizer.Settings(), provider, places, days, alts).itinerary
      ensures annotations == ItinerarySpec(old(clustered), old(optimizer.State()), optimizer.Settings(), provider, places, days, alts).annotations
      ensures clustered == ItinerarySpec(old(clustered), old(optimizer.State()), optimizer.Settings(), provider, places, days, alts).clustered
      ensures optimizer.State() == ItinerarySpec(old(clustered), old(optimizer.State()), optimizer.Settings(), provider, places, days, alts).cache
    {
      itinerary, annotations := [], map[];
      if days < 1 {
        return;
      }
      var activities := OfKinds(places, ActivityKinds);
      var restaurants := OfKinds(places, RestaurantKinds);
      var cafes := OfKinds(places, CafeKinds);
      var hotel := MainHotel(places);
      var mixed := MixPlaces(activities, restaurants, cafes);
      var clusters := optimizer.ClusterPlaces(mixed, days);
      clustered := Some(clusters);
      var report := ClusteringReport(mixed, days, clusters);
      ghost var c0 := optimizer.State();
      itinerary, annotations := PlanDays(clusters, hotel, days, alts, provider, c0, optimizer.Settings());
      ItineraryFromDays(old(clustered), c0, optimizer.Settings(), provider, places, days, alts, clusters, itinerary, annotations,
                        optimizer.State(), report);
      itinerary := itinerary[0 := itinerary[0].(clustering := Some(report))];
    }

    /** The `for day in range(1, duration_days + 1)` loop: one plan per day,
        each continuing from the cache and the records the day before left. */
    method PlanDays(clusters: seq<seq<Place>>, hotel: Option<Place>, days: int, alts: seq<Place>, provider: Provider,
                    ghost c0: Cache, ghost cfg: Config)
      returns (plans: seq<DayPlan>, annotations: Annotations)
      requires Valid() && 1 <= days && c0 == optimizer.State() && cfg == optimizer.Settings() && WellFormed(c0, cfg.maxSize)
      modifies optimizer
      ensures Valid()
      ensures DaysReached(c0, cfg, provider, clusters, hotel, days, alts, days, plans, annotations, optimizer.State())
    {
      plans, annotations := [], map[];
      for day := 1 to days + 1
        invariant Valid() && cfg == optimizer.Settings()
        invariant DaysReached(c0, cfg, provider, clusters, hotel, days, alts, day - 1, plans, annotations, optimizer.State())
      {
        var plan, written := NextDay(clusters, hotel, day - 1, days, alts, provider, c0, cfg, plans, annotations);
        plans := plans + [plan];
        annotations := written;
      }
    }

    /** One pass of the day loop: plan day `n + 1` after the `n` days before it. */
    method NextDay(clusters: seq<seq<Place>>, hotel: Option<Place>, n: nat, days: int, alts: seq<Place>, provider: Provider,
                   ghost c0: Cache, ghost cfg: Config, ghost plans: seq<DayPlan>, annotations: Annotations)
      returns (plan: DayPlan, written: Annotations)
      requires Valid() && cfg == optimizer.Settings() && WellFormed(c0, cfg.maxSize)
      requires DaysReached(c0, cfg, provider, clusters, hotel, days, alts, n, plans, annotations, optimizer.State())
      modifies optimizer
      ensures Valid()
      ensures DaysReached(c0, cfg, provider, clusters, hotel, days, alts, n + 1, plans + [plan], written, optimizer.State())
    {
      ghost var before := optimizer.State();
      plan, written := PlanDay(clusters, hotel, n + 1, days, alts, annotations, provider);
      DaysSnoc(c0, cfg, provider, clusters, hotel, days, alts, n, plans, annotations, before,
               plan, written, optimizer.State());
    }

    /** One day of `_create_itinerary_impl`. */
    method PlanDay(clusters: seq<seq<Place>>, hotel: Option<Place>, day: nat, days: int, alts: seq<Place>,
                   m: Annotations, provider: Provider) returns (plan: DayPlan, annotations: Annotations)
      requires Valid() && 1 <= day
      modifies optimizer
      ensures Valid()
      ensures plan == PlanDaySpec(old(optimizer.State()), optimizer.Settings(), provider, clusters, hotel, day, days, alts, m).0
      ensures annotations == PlanDaySpec(old(optimizer.State()), optimizer.Settings(), provider, clusters, hotel, day, days, alts, m).1
      ensures optimizer.State() == PlanDaySpec(old(optimizer.State()), optimizer.Settings(), provider, clusters, hotel, day, days, alts, m).2
    {
      var daily := if day <= |clusters| then clusters[day - 1] else [];
      var stops := optimizer.OptimizeRoute(daily, hotel, provider);
      if hotel.Some? && day < days {
        stops := stops + [hotel.value];
      }
      var legs := WalkLegs(stops, provider);
      var items, totalDist, totalTime;
      items, totalDist, totalTime, annotations := BuildSchedule(stops, legs, alts, m, provider);
      plan := DayPlan(day, items, Summary(Round2(totalDist), totalTime), None);
    }
  }
}
