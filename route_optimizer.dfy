// The distance oracle and route ordering of services/route_optimizer.py:
// a bounded first-in-first-out cache in front of a straight-line estimate and
// an optional routing provider, the travel-time rule, and greedy
// nearest-neighbour ordering. The pure functions below are the reference
// definitions; class RouteOptimizer updates its cache in place and is proved
// against them.
module Routing {
  import opened Common
  import KMeans

  /** `_haversine_distance`: great-circle kilometres between two coordinate
      pairs, already rounded to two decimals by the source. Uninterpreted. */
  type Haversine = KMeans.Haversine

  /** What the routing provider answers for one request (coordinates and its
      own travel-mode name): a route's length in metres and travel time in
      seconds, or no usable route (an HTTP error, a timeout, an empty `routes`
      list all read the same to the oracle). */
  datatype Reply = Routed(lengthMeters: real, travelSeconds: real) | Failed

  type Provider = (real, real, real, real, string) -> Reply

  /** How an estimate was produced: the `method` field of the result dict. */
  datatype Method = ByHaversine | ByAzureMaps | FromCache | NoMethod

  datatype Estimate = Estimate(distanceKm: real, timeMinutes: int, via: Method)

  /** A coordinate as `.4f` prints it: a minus sign or not, and the digits,
      kept here as the magnitude 10^4 times larger. */
  datatype Printed = Printed(negative: bool, units: nat)

  /** The cache key: the four coordinates as printed with four decimals and
      the mode. */
  datatype Key = Key(lat1: Printed, lon1: Printed, lat2: Printed, lon2: Printed, mode: string)

  /** The cache dict: its keys in insertion order and its entries. */
  datatype Cache = Cache(order: seq<Key>, entries: map<Key, Estimate>)

  /** The oracle's fixed settings: `use_azure_maps`, `cache_max_size` and the
      straight-line distance. */
  datatype Config = Config(useAzureMaps: bool, maxSize: nat, haversine: Haversine)

  const DefaultCacheMaxSize: nat := 5000
  /** Below this straight-line distance (km) the provider is never asked. */
  const ProviderThresholdKm: real := 1.5
  /** Minutes added to every leg as slack. */
  const SlackMinutes: int := 10

  // ---------------------------------------------------------------------
  // Straight-line estimate and travel time

  /** Average speed in km/h per mode: walk 4, car 30, anything else 20. */
  function Speed(mode: string): (kmh: real)
    ensures kmh == 4.0 || kmh == 20.0 || kmh == 30.0
    ensures mode == "walk" <==> kmh == 4.0
    ensures mode == "car" <==> kmh == 30.0
  {
    if mode == "walk" then 4.0 else if mode == "car" then 30.0 else 20.0
  }

  /** Minutes of travel per kilometre at the mode's speed, `60 / speed`. */
  function Scaled(distanceKm: real, mode: string): (minutes: real)
    ensures minutes == distanceKm / Speed(mode) * 60.0
  {
    if mode == "walk" then distanceKm * 15.0
    else if mode == "car" then distanceKm * 2.0
    else distanceKm * 3.0
  }

  /** Minutes the straight-line estimate gives for `distanceKm`: the travel
      time at the mode's speed, rounded, plus the slack. */
  function StraightTime(distanceKm: real, mode: string): (minutes: int)
    ensures distanceKm / Speed(mode) * 60.0 - 0.5 <= (minutes - SlackMinutes) as real <= distanceKm / Speed(mode) * 60.0 + 0.5
    ensures 0.0 <= distanceKm ==> SlackMinutes <= minutes
  {
    Round(Scaled(distanceKm, mode)) + SlackMinutes
  }

  /** A straight-line leg never takes less than the slack, and a longer leg
      never takes fewer minutes. */
  lemma StraightTimeBounds(d1: real, d2: real, mode: string)
    requires 0.0 <= d1 <= d2
    ensures SlackMinutes <= StraightTime(d1, mode) <= StraightTime(d2, mode)
  {
    RoundMonotone(Scaled(d1, mode), Scaled(d2, mode));
  }

  /** `_calculate_with_haversine`: the straight-line distance rounded to two
      decimals and the time at the mode's speed. */
  function StraightEstimate(straightKm: real, mode: string): (e: Estimate)
    ensures e.via == ByHaversine
    ensures e.timeMinutes == StraightTime(e.distanceKm, mode)
    ensures e.distanceKm == Round2(straightKm)
  {
    var d := Round2(straightKm);
    Estimate(d, StraightTime(d, mode), ByHaversine)
  }

  /** `calculate_travel_time`: the same speed table, but the minutes are
      truncated with `int()` rather than rounded. */
  function TravelTime(distanceKm: real, mode: string): (minutes: int)
    ensures 0.0 <= distanceKm ==>
      (minutes - SlackMinutes) as real <= distanceKm / Speed(mode) * 60.0 < (minutes - SlackMinutes + 1) as real
    ensures distanceKm < 0.0 ==>
      (minutes - SlackMinutes - 1) as real < distanceKm / Speed(mode) * 60.0 <= (minutes - SlackMinutes) as real
  {
    Trunc(Scaled(distanceKm, mode)) + SlackMinutes
  }

  /** For a non-negative distance the truncating rule gives the rounding
      rule's minutes or one minute less. */
  lemma TravelTimeAgainstStraightTime(distanceKm: real, mode: string)
    requires 0.0 <= distanceKm
    ensures StraightTime(distanceKm, mode) - 1 <= TravelTime(distanceKm, mode) <= StraightTime(distanceKm, mode)
    ensures SlackMinutes <= TravelTime(distanceKm, mode)
  {
    var x := Scaled(distanceKm, mode);
    var t, r := Trunc(x), Round(x);
    assert t as real <= x < t as real + 1.0;
    assert x - 0.5 <= r as real <= x + 0.5;
  }

  /** The provider's travel-mode name for one of ours (`car` for unknown modes). */
  function ProviderMode(mode: string): (m: string)
    ensures m in {"car", "publicTransit", "pedestrian"}
    ensures m == "publicTransit" <==> mode == "public"
    ensures m == "pedestrian" <==> mode == "walk"
  {
    if mode == "public" then "publicTransit" else if mode == "walk" then "pedestrian" else "car"
  }

  /** An uncached estimate: straight-line unless the provider is enabled, the
      straight-line distance is at least 1.5 km and the mode is not walk, in
      which case the provider's route is used when it answers. */
  function Fresh(cfg: Config, provider: Provider, lat1: real, lon1: real, lat2: real, lon2: real, mode: string): (e: Estimate)
    ensures e.via == ByHaversine || e.via == ByAzureMaps
    ensures e.via == ByAzureMaps <==>
      cfg.useAzureMaps && ProviderThresholdKm <= cfg.haversine(lat1, lon1, lat2, lon2) && mode != "walk" &&
      provider(lat1, lon1, lat2, lon2, ProviderMode(mode)).Routed?
    ensures e.via == ByHaversine ==> e == StraightEstimate(cfg.haversine(lat1, lon1, lat2, lon2), mode)
    ensures e.via == ByAzureMaps ==>
      var reply := provider(lat1, lon1, lat2, lon2, ProviderMode(mode));
      e.distanceKm == Round2(reply.lengthMeters / 1000.0) && e.timeMinutes == Round(reply.travelSeconds / 60.0)
  {
    var straight := cfg.haversine(lat1, lon1, lat2, lon2);
    if !cfg.useAzureMaps || straight < ProviderThresholdKm || mode == "walk" then
      StraightEstimate(straight, mode)
    else
      match provider(lat1, lon1, lat2, lon2, ProviderMode(mode))
      case Routed(meters, seconds) => Estimate(Round2(meters / 1000.0), Round(seconds / 60.0), ByAzureMaps)
      case Failed => StraightEstimate(straight, mode)
  }

  /** A fresh estimate may always be stored under its own key. */
  lemma FreshFits(cfg: Config, provider: Provider, lat1: real, lon1: real, lat2: real, lon2: real, mode: string)
    ensures EntryOk(cfg, CacheKey(lat1, lon1, lat2, lon2, mode), Fresh(cfg, provider, lat1, lon1, lat2, lon2, mode))
  {
  }

  /** The signed value, 10^4 times larger, that a printed coordinate reads as. */
  function Signed(p: Printed): int {
    if p.negative then -(p.units as int) else p.units
  }

  /** `p` is how `.4f` prints `x`: a minus sign exactly for negative values,
      also for one that rounds to zero ("-0.0000"), and the value rounded half
      to even at four decimals. */
  ghost predicate Shows(p: Printed, x: real) {
    (p.negative <==> x < 0.0) && Signed(p) == Round(x * 10000.0)
  }

  /** `f"{x:.4f}"`; the digits lie within half a unit of the fourth decimal. */
  function Printed4(x: real): (r: Printed)
    ensures Shows(r, x)
    ensures x * 10000.0 - 0.5 <= Signed(r) as real <= x * 10000.0 + 0.5
  {
    var n := Round(x * 10000.0);
    Printed(x < 0.0, if n < 0 then -n else n)
  }

  /** Two coordinates print alike exactly when they round alike and lie on the
      same side of zero. */
  lemma Printed4Agree(x: real, y: real)
    ensures Printed4(x) == Printed4(y) <==> Round(x * 10000.0) == Round(y * 10000.0) && (x < 0.0 <==> y < 0.0)
  {
    var nx, ny := Round(x * 10000.0), Round(y * 10000.0);
    if x < 0.0 {
      assert nx <= 0;
    } else {
      assert 0 <= nx;
    }
    if y < 0.0 {
      assert ny <= 0;
    } else {
      assert 0 <= ny;
    }
  }

  /** A tiny negative coordinate prints as "-0.0000", so it does not share a
      key with the tiny positive one that prints as "0.0000". */
  lemma NegativeZeroKeyDiffers(mode: string)
    ensures Printed4(-0.00001) == Printed(true, 0) && Printed4(0.00001) == Printed(false, 0)
    ensures CacheKey(-0.00001, 0.0, 0.0, 0.0, mode) != CacheKey(0.00001, 0.0, 0.0, 0.0, mode)
  {
    assert Round(-0.1) == 0;
    assert Round(0.1) == 0;
  }

  /** `cache_key`: every coordinate as `.4f` prints it, and the mode. */
  function CacheKey(lat1: real, lon1: real, lat2: real, lon2: real, mode: string): (r: Key)
    ensures r.mode == mode
    ensures Shows(r.lat1, lat1) && Shows(r.lon1, lon1) && Shows(r.lat2, lat2) && Shows(r.lon2, lon2)
  {
    Key(Printed4(lat1), Printed4(lon1), Printed4(lat2), Printed4(lon2), mode)
  }

  // ---------------------------------------------------------------------
  // The bounded cache

  /** The cache's shape: keys listed once each in insertion order, exactly the
      keys of the entries, never more than the capacity. */
  ghost predicate WellFormed(c: Cache, maxSize: nat) {
    && 0 < maxSize
    && |c.order| <= maxSize
    && |c.entries| == |c.order|
    && Distinct(c.order)
    && (forall k :: k in c.entries <==> k in c.order)
  }

  /** What a stored estimate may be: a straight-line estimate whose minutes
      match its distance at the key's mode, or a provider route for a mode
      other than walk when the provider is enabled. */
  ghost predicate EntryOk(cfg: Config, k: Key, e: Estimate) {
    || (e.via == ByHaversine && e.timeMinutes == StraightTime(e.distanceKm, k.mode))
    || (e.via == ByAzureMaps && cfg.useAzureMaps && k.mode != "walk")
  }

  ghost predicate CacheValid(c: Cache, cfg: Config) {
    && WellFormed(c, cfg.maxSize)
    && (forall k :: k in c.entries ==> EntryOk(cfg, k, c.entries[k]))
  }

  /** The room-making half of `_add_to_cache`: a full cache drops its oldest
      key; one with room is left alone. Either way there is room after. */
  function Evict(c: Cache, maxSize: nat): (r: Cache)
    requires WellFormed(c, maxSize)
    ensures WellFormed(r, maxSize) && |r.order| < maxSize
    ensures |c.order| < maxSize ==> r == c
    ensures |c.order| == maxSize ==> r.order == c.order[1..] && r.entries == c.entries - {c.order[0]}
  {
    if |c.entries| >= maxSize then
      var o, m := c.order[1..], c.entries - {c.order[0]};
      DistinctTail(c.order);
      assert m.Keys == c.entries.Keys - {c.order[0]};
      Cache(o, m)
    else c
  }

  /** The storing half of `_add_to_cache`: an existing key keeps its place in
      the order, a new key goes last. */
  function Store(c: Cache, maxSize: nat, key: Key, value: Estimate): (r: Cache)
    requires WellFormed(c, maxSize) && |c.order| < maxSize
    ensures WellFormed(r, maxSize)
    ensures r.entries == c.entries[key := value]
    ensures key in c.entries ==> r.order == c.order
    ensures key !in c.entries ==> r.order == c.order + [key]
  {
    if key in c.entries then Cache(c.order, c.entries[key := value])
    else
      DistinctSnoc(c.order, key);
      Cache(c.order + [key], c.entries[key := value])
  }

  /** `_add_to_cache`: when full, drop the oldest key first; then store. */
  function Insert(c: Cache, maxSize: nat, key: Key, value: Estimate): (r: Cache)
    requires WellFormed(c, maxSize)
    ensures WellFormed(r, maxSize)
  {
    Store(Evict(c, maxSize), maxSize, key, value)
  }

  /** Storing puts the value under its key, and a new key goes last. */
  lemma InsertStores(c: Cache, maxSize: nat, key: Key, value: Estimate)
    requires WellFormed(c, maxSize)
    ensures key in Insert(c, maxSize, key, value).entries && Insert(c, maxSize, key, value).entries[key] == value
    ensures key !in c.entries ==> Insert(c, maxSize, key, value).order[|Insert(c, maxSize, key, value).order| - 1] == key
  {
    var kept := Evict(c, maxSize);
    if key !in c.entries {
      assert key !in kept.entries;
    }
  }

  /** Storing keeps every other entry unless the oldest key of a full cache had
      to make room. */
  lemma InsertKeeps(c: Cache, maxSize: nat, key: Key, value: Estimate, k: Key)
    requires WellFormed(c, maxSize)
    requires k in c.entries && k != key && (|c.order| < maxSize || k != c.order[0])
    ensures k in Insert(c, maxSize, key, value).entries && Insert(c, maxSize, key, value).entries[k] == c.entries[k]
  {
    var kept := Evict(c, maxSize);
    assert k in kept.entries && kept.entries[k] == c.entries[k];
  }

  /** Storing adds no key but its own. */
  lemma InsertAddsOnlyKey(c: Cache, maxSize: nat, key: Key, value: Estimate, k: Key)
    requires WellFormed(c, maxSize)
    requires k in Insert(c, maxSize, key, value).entries
    ensures k == key || k in c.entries
  {
    var kept := Evict(c, maxSize);
    assert k == key || k in kept.entries;
  }

  /** Storing puts the value under its key, keeps every other entry unless the
      oldest key of a full cache had to make room, adds no other key, and puts
      a new key last. */
  lemma InsertEffect(c: Cache, maxSize: nat, key: Key, value: Estimate)
    requires WellFormed(c, maxSize)
    ensures var r := Insert(c, maxSize, key, value);
      && key in r.entries && r.entries[key] == value
      && (forall k :: k in c.entries && k != key && (|c.order| < maxSize || k != c.order[0]) ==>
            k in r.entries && r.entries[k] == c.entries[k])
      && (forall k :: k in r.entries ==> k == key || k in c.entries)
      && (key !in c.entries ==> r.order[|r.order| - 1] == key)
  {
    InsertStores(c, maxSize, key, value);
    forall k | k in c.entries && k != key && (|c.order| < maxSize || k != c.order[0])
      ensures k in Insert(c, maxSize, key, value).entries && Insert(c, maxSize, key, value).entries[k] == c.entries[k]
    {
      InsertKeeps(c, maxSize, key, value, k);
    }
    forall k | k in Insert(c, maxSize, key, value).entries
      ensures k == key || k in c.entries
    {
      InsertAddsOnlyKey(c, maxSize, key, value, k);
    }
  }

  /** Storing an estimate that fits its key keeps every entry fitting. */
  lemma InsertValid(c: Cache, cfg: Config, key: Key, value: Estimate)
    requires WellFormed(c, cfg.maxSize)
    ensures CacheValid(c, cfg) && EntryOk(cfg, key, value) ==> CacheValid(Insert(c, cfg.maxSize, key, value), cfg)
  {
    InsertEffect(c, cfg.maxSize, key, value);
  }

  /** Storing a new key in a full cache evicts exactly the oldest key. */
  lemma InsertFullEvictsOldest(c: Cache, maxSize: nat, key: Key, value: Estimate)
    requires WellFormed(c, maxSize) && |c.order| == maxSize && key !in c.entries
    ensures Insert(c, maxSize, key, value).order == c.order[1..] + [key]
    ensures c.order[0] !in Insert(c, maxSize, key, value).entries
    ensures |Insert(c, maxSize, key, value).entries| == maxSize
  {
  }

  /** Storing keys one after another. */
  function InsertAll(c: Cache, maxSize: nat, keys: seq<Key>, value: Estimate): (r: Cache)
    requires WellFormed(c, maxSize)
    ensures WellFormed(r, maxSize)
    decreases |keys|
  {
    if keys == [] then c
    else
      Insert(InsertAll(c, maxSize, keys[..|keys| - 1], value), maxSize, keys[|keys| - 1], value)
  }

  /** First in, first out: storing distinct keys into an empty cache keeps the
      most recent `maxSize` of them, oldest first. */
  lemma {:induction false} InsertAllKeepsNewest(maxSize: nat, keys: seq<Key>, value: Estimate)
    requires 0 < maxSize
    requires Distinct(keys)
    ensures InsertAll(Cache([], map[]), maxSize, keys, value).order == keys[Max(0, |keys| - maxSize)..]
    decreases |keys|
  {
    if keys != [] {
      var n := |keys|;
      var init, last := keys[..n - 1], keys[n - 1];
      InsertAllKeepsNewest(maxSize, init, value);
      var c := InsertAll(Cache([], map[]), maxSize, init, value);
      var lo := Max(0, |init| - maxSize);
      assert c.order == keys[lo..n - 1];
      assert last !in c.order by {
        assert last !in init;
        assert forall x :: x in init[lo..] ==> x in init;
      }
      assert last !in c.entries;
      var kept := Evict(c, maxSize);
      assert InsertAll(Cache([], map[]), maxSize, keys, value).order == kept.order + [last];
      if |init| >= maxSize {
        assert kept.order == keys[lo + 1..n - 1];
        SliceSnoc(keys, lo + 1);
      } else {
        SliceSnoc(keys, lo);
      }
    }
  }

  lemma SliceSnoc<T>(s: seq<T>, a: nat)
    requires a < |s|
    ensures s[a..|s| - 1] + [s[|s| - 1]] == s[a..]
  {
  }

  /** `calculate_distance`: the null check, then the cache, then a fresh
      estimate that is stored. The answer and the new cache. */
  function Query(c: Cache, cfg: Config, provider: Provider,
                 lat1: Option<real>, lon1: Option<real>, lat2: Option<real>, lon2: Option<real>, mode: string): (r: (Estimate, Cache))
    requires WellFormed(c, cfg.maxSize)
    ensures WellFormed(r.1, cfg.maxSize)
    ensures CacheValid(c, cfg) ==> CacheValid(r.1, cfg)
    ensures lat1.None? || lon1.None? || lat2.None? || lon2.None? ==> r.0 == Estimate(0.0, 0, NoMethod) && r.1 == c
    ensures lat1.Some? && lon1.Some? && lat2.Some? && lon2.Some? ==>
      var key := CacheKey(lat1.value, lon1.value, lat2.value, lon2.value, mode);
      if key in c.entries then r == (c.entries[key].(via := FromCache), c)
      else
        var e := Fresh(cfg, provider, lat1.value, lon1.value, lat2.value, lon2.value, mode);
        r == (e, Insert(c, cfg.maxSize, key, e))
  {
    if lat1.None? || lon1.None? || lat2.None? || lon2.None? then (Estimate(0.0, 0, NoMethod), c)
    else
      var key := CacheKey(lat1.value, lon1.value, lat2.value, lon2.value, mode);
      if key in c.entries then (c.entries[key].(via := FromCache), c)
      else
        var e := Fresh(cfg, provider, lat1.value, lon1.value, lat2.value, lon2.value, mode);
        InsertValid(c, cfg, key, e);
        (e, Insert(c, cfg.maxSize, key, e))
  }

  /** Asking the same question twice: the second answer comes from the cache,
      carries the first answer's distance and minutes, and changes nothing. */
  lemma QueryTwice(c: Cache, cfg: Config, provider: Provider, lat1: real, lon1: real, lat2: real, lon2: real, mode: string)
    requires WellFormed(c, cfg.maxSize)
    ensures var (e1, c1) := Query(c, cfg, provider, Some(lat1), Some(lon1), Some(lat2), Some(lon2), mode);
      var (e2, c2) := Query(c1, cfg, provider, Some(lat1), Some(lon1), Some(lat2), Some(lon2), mode);
      e2 == e1.(via := FromCache) && c2 == c1
  {
    var key := CacheKey(lat1, lon1, lat2, lon2, mode);
    if key !in c.entries {
      InsertEffect(c, cfg.maxSize, key, Fresh(cfg, provider, lat1, lon1, lat2, lon2, mode));
    }
  }

  /** A walking leg never reaches the provider: with a consistent cache its
      minutes are always the straight-line minutes for its distance. */
  lemma WalkingLegIsStraight(c: Cache, cfg: Config, provider: Provider, lat1: real, lon1: real, lat2: real, lon2: real)
    requires CacheValid(c, cfg)
    ensures var e := Query(c, cfg, provider, Some(lat1), Some(lon1), Some(lat2), Some(lon2), "walk").0;
      (e.via == ByHaversine || e.via == FromCache) && e.timeMinutes == StraightTime(e.distanceKm, "walk")
  {
    var key := CacheKey(lat1, lon1, lat2, lon2, "walk");
    if key in c.entries {
      assert EntryOk(cfg, key, c.entries[key]);
    }
  }

  // ---------------------------------------------------------------------
  // Greedy nearest-neighbour ordering

  /** The distances from `cur` to each candidate, asked in order (mode
      `public`), with the cache they leave behind. */
  function Scan(c: Cache, cfg: Config, provider: Provider, cur: Place, cands: seq<Place>): (r: (seq<real>, Cache))
    requires WellFormed(c, cfg.maxSize)
    ensures |r.0| == |cands| && WellFormed(r.1, cfg.maxSize)
    ensures CacheValid(c, cfg) ==> CacheValid(r.1, cfg)
    decreases |cands|
  {
    if cands == [] then ([], c)
    else
      var q := Query(c, cfg, provider, Some(cur.lat), Some(cur.lon), Some(cands[0].lat), Some(cands[0].lon), "public");
      var rest := Scan(q.1, cfg, provider, cur, cands[1..]);
      ([q.0.distanceKm] + rest.0, rest.1)
  }

  /** Scanning from position j: the query for `cands[j]`, then the rest. */
  lemma ScanStep(c: Cache, cfg: Config, provider: Provider, cur: Place, cands: seq<Place>, j: nat)
    requires WellFormed(c, cfg.maxSize) && j < |cands|
    ensures var e := Query(c, cfg, provider, Some(cur.lat), Some(cur.lon), Some(cands[j].lat), Some(cands[j].lon), "public").0;
      var after := Query(c, cfg, provider, Some(cur.lat), Some(cur.lon), Some(cands[j].lat), Some(cands[j].lon), "public").1;
      && Scan(c, cfg, provider, cur, cands[j..]).0 == [e.distanceKm] + Scan(after, cfg, provider, cur, cands[j + 1..]).0
      && Scan(c, cfg, provider, cur, cands[j..]).1 == Scan(after, cfg, provider, cur, cands[j + 1..]).1
  {
    assert cands[j..][1..] == cands[j + 1..];
  }

  /** A scan of `cands` from `here` that has reached position j: the
      distances `seen` so far followed by the rest of the scan make up
      `dists`, and the scan ends with the cache `last`. */
  ghost predicate ScanAt(here: Cache, cfg: Config, provider: Provider, cur: Place, cands: seq<Place>, j: nat,
                         seen: seq<real>, dists: seq<real>, last: Cache)
    requires WellFormed(here, cfg.maxSize) && j <= |cands|
  {
    |seen| == j && (seen + Scan(here, cfg, provider, cur, cands[j..]).0, Scan(here, cfg, provider, cur, cands[j..]).1) == (dists, last)
  }

  /** A scan starts at position 0 with nothing seen. */
  lemma ScanAtStart(here: Cache, cfg: Config, provider: Provider, cur: Place, cands: seq<Place>)
    requires WellFormed(here, cfg.maxSize)
    ensures ScanAt(here, cfg, provider, cur, cands, 0, [], Scan(here, cfg, provider, cur, cands).0,
                   Scan(here, cfg, provider, cur, cands).1)
  {
    AppendEmpty(cands);
    AppendEmpty(Scan(here, cfg, provider, cur, cands).0);
  }

  /** A scan that has reached the end has seen every distance and left the
      cache it ends with. */
  lemma ScanAtEnd(here: Cache, cfg: Config, provider: Provider, cur: Place, cands: seq<Place>,
                  seen: seq<real>, dists: seq<real>, last: Cache)
    requires WellFormed(here, cfg.maxSize)
    requires ScanAt(here, cfg, provider, cur, cands, |cands|, seen, dists, last)
    ensures seen == dists && last == here
  {
    AppendEmpty(cands);
    AppendEmpty(seen);
  }

  /** One query of a scan in progress: its distance joins those seen so far
      and the scan goes on from the cache it leaves. */
  lemma ScanAdvance(dists: seq<real>, last: Cache, seen: seq<real>, here: Cache, cfg: Config, provider: Provider,
                    cur: Place, cands: seq<Place>, j: nat, e: Estimate, after: Cache)
    requires WellFormed(here, cfg.maxSize) && j < |cands|
    requires ScanAt(here, cfg, provider, cur, cands, j, seen, dists, last)
    requires e == Query(here, cfg, provider, Some(cur.lat), Some(cur.lon), Some(cands[j].lat), Some(cands[j].lon), "public").0
    requires after == Query(here, cfg, provider, Some(cur.lat), Some(cur.lon), Some(cands[j].lat), Some(cands[j].lon), "public").1
    ensures WellFormed(after, cfg.maxSize)
    ensures ScanAt(after, cfg, provider, cur, cands, j + 1, seen + [e.distanceKm], dists, last)
    ensures dists[j] == e.distanceKm
  {
    ScanStep(here, cfg, provider, cur, cands, j);
    var rest := Scan(after, cfg, provider, cur, cands[j + 1..]).0;
    assert dists == seen + ([e.distanceKm] + rest);
    AppendAssoc(seen, [e.distanceKm], rest);
    ElementAfter(dists, seen, e.distanceKm, rest);
  }

  /** From `cur`, repeatedly move to the first nearest unvisited place. */
  function Walk(c: Cache, cfg: Config, provider: Provider, cur: Place, unvisited: seq<Place>): (r: (seq<Place>, Cache))
    requires WellFormed(c, cfg.maxSize)
    ensures WellFormed(r.1, cfg.maxSize)
    ensures CacheValid(c, cfg) ==> CacheValid(r.1, cfg)
    decreases |unvisited|
  {
    if unvisited == [] then ([], c)
    else
      var s := Scan(c, cfg, provider, cur, unvisited);
      var next := unvisited[FirstMin(s.0)];
      var w := Walk(s.1, cfg, provider, next, RemoveFirst(unvisited, next));
      ([next] + w.0, w.1)
  }

  /** `optimize_route(places, start)`: nothing for no places; otherwise the
      start (or, without one, the first highest-scored place) followed by the
      greedy walk over the rest. */
  function Route(c: Cache, cfg: Config, provider: Provider, places: seq<Place>, start: Option<Place>): (r: (seq<Place>, Cache))
    requires WellFormed(c, cfg.maxSize)
    ensures WellFormed(r.1, cfg.maxSize)
    ensures CacheValid(c, cfg) ==> CacheValid(r.1, cfg)
  {
    if places == [] then ([], c)
    else if start.Some? then
      var w := Walk(c, cfg, provider, start.value, places);
      ([start.value] + w.0, w.1)
    else
      var first := places[BestScoredIndex(places)];
      var w := Walk(c, cfg, provider, first, RemoveFirst(places, first));
      ([first] + w.0, w.1)
  }

  /** `BestScored` with its bound, for indexing. */
  function BestScoredIndex(places: seq<Place>): (i: nat)
    requires places != []
    ensures i == BestScored(places) && i < |places|
  {
    BestScoredIsFirstHighest(places);
    BestScored(places)
  }

  /** One step of the walk: go to the first nearest place, then walk on from
      it with the cache the distance queries left. */
  lemma WalkStep(c: Cache, cfg: Config, provider: Provider, cur: Place, unvisited: seq<Place>)
    requires WellFormed(c, cfg.maxSize) && unvisited != []
    ensures var after := Scan(c, cfg, provider, cur, unvisited).1;
      var next := unvisited[FirstMin(Scan(c, cfg, provider, cur, unvisited).0)];
      && Walk(c, cfg, provider, cur, unvisited).0 == [next] + Walk(after, cfg, provider, next, RemoveFirst(unvisited, next)).0
      && Walk(c, cfg, provider, cur, unvisited).1 == Walk(after, cfg, provider, next, RemoveFirst(unvisited, next)).1
  {
  }

  /** The walk visits every unvisited place exactly once. */
  lemma {:induction false} WalkVisitsAll(c: Cache, cfg: Config, provider: Provider, cur: Place, unvisited: seq<Place>)
    requires WellFormed(c, cfg.maxSize)
    ensures |Walk(c, cfg, provider, cur, unvisited).0| == |unvisited|
    ensures multiset(Walk(c, cfg, provider, cur, unvisited).0) == multiset(unvisited)
    decreases |unvisited|
  {
    if unvisited != [] {
      var after := Scan(c, cfg, provider, cur, unvisited).1;
      var next := unvisited[FirstMin(Scan(c, cfg, provider, cur, unvisited).0)];
      WalkVisitsAll(after, cfg, provider, next, RemoveFirst(unvisited, next));
    }
  }

  /** The route is empty for no places; otherwise it starts at the start, or
      without one at the first highest-scored place, and lists every place
      exactly once after the start (or including the first place). */
  lemma RouteVisitsAll(c: Cache, cfg: Config, provider: Provider, places: seq<Place>, start: Option<Place>)
    requires WellFormed(c, cfg.maxSize)
    ensures places == [] ==> Route(c, cfg, provider, places, start).0 == [] && Route(c, cfg, provider, places, start).1 == c
    ensures var route := Route(c, cfg, provider, places, start).0;
      places != [] && start.Some? ==>
        |route| == |places| + 1 && route[0] == start.value && multiset(route[1..]) == multiset(places)
    ensures var route := Route(c, cfg, provider, places, start).0;
      places != [] && start.None? ==>
        |route| == |places| && route[0] == places[BestScored(places)] && multiset(route) == multiset(places)
  {
    if places != [] {
      if start.Some? {
        RouteFromStart(c, cfg, provider, places, start.value);
      } else {
        RouteFromBest(c, cfg, provider, places);
      }
    }
  }

  /** With a start, the route is the start followed by every place once. */
  lemma RouteFromStart(c: Cache, cfg: Config, provider: Provider, places: seq<Place>, start: Place)
    requires WellFormed(c, cfg.maxSize) && places != []
    ensures var route := Route(c, cfg, provider, places, Some(start)).0;
      |route| == |places| + 1 && route[0] == start && multiset(route[1..]) == multiset(places)
  {
    var walk := Walk(c, cfg, provider, start, places).0;
    WalkVisitsAll(c, cfg, provider, start, places);
    assert ([start] + walk)[1..] == walk;
  }

  /** Without a start, the route opens at the first best-scored place and
      lists every place once. */
  lemma RouteFromBest(c: Cache, cfg: Config, provider: Provider, places: seq<Place>)
    requires WellFormed(c, cfg.maxSize) && places != []
    ensures var route := Route(c, cfg, provider, places, None).0;
      |route| == |places| && route[0] == places[BestScored(places)] && multiset(route) == multiset(places)
  {
    var first := places[BestScoredIndex(places)];
    var walk := Walk(c, cfg, provider, first, RemoveFirst(places, first)).0;
    WalkVisitsAll(c, cfg, provider, first, RemoveFirst(places, first));
    ConsAfterRemove(places, first, walk);
  }

  /** Each step of the walk goes to a place at the smallest distance the oracle
      reported, and to the first such place among the unvisited ones. */
  lemma WalkStepIsNearest(c: Cache, cfg: Config, provider: Provider, cur: Place, unvisited: seq<Place>)
    requires WellFormed(c, cfg.maxSize) && unvisited != []
    ensures var ds := Scan(c, cfg, provider, cur, unvisited).0;
      var i := FirstMin(ds);
      && i < |unvisited|
      && Walk(c, cfg, provider, cur, unvisited).0 != []
      && Walk(c, cfg, provider, cur, unvisited).0[0] == unvisited[i]
      && (forall j :: 0 <= j < |unvisited| ==> ds[i] <= ds[j])
      && (forall j :: 0 <= j < i ==> ds[i] < ds[j])
  {
    var ds := Scan(c, cfg, provider, cur, unvisited).0;
    assert |ds| == |unvisited|;
    FirstMinIsFirstMinimal(ds);
    WalkHead(c, cfg, provider, cur, unvisited);
  }

  /** The walk opens at the first nearest unvisited place. */
  lemma WalkHead(c: Cache, cfg: Config, provider: Provider, cur: Place, unvisited: seq<Place>)
    requires WellFormed(c, cfg.maxSize) && unvisited != []
    ensures FirstMin(Scan(c, cfg, provider, cur, unvisited).0) < |unvisited|
    ensures Walk(c, cfg, provider, cur, unvisited).0 != []
    ensures Walk(c, cfg, provider, cur, unvisited).0[0] == unvisited[FirstMin(Scan(c, cfg, provider, cur, unvisited).0)]
  {
  }

  // ---------------------------------------------------------------------
  // The optimizer object

  class RouteOptimizer {
    const useAzureMaps: bool
    const cacheMaxSize: nat
    const haversine: Haversine
    /** The cache dict's keys in insertion order. */
    var order: seq<Key>
    var entries: map<Key, Estimate>

    function Settings(): Config {
      Config(useAzureMaps, cacheMaxSize, haversine)
    }

    function State(): Cache
      reads this
    {
      Cache(order, entries)
    }

    ghost predicate Valid()
      reads this
    {
      CacheValid(State(), Settings())
    }

    /** `USE_AZURE_MAPS` from the environment becomes a parameter. */
    constructor(useAzureMaps: bool, haversine: Haversine)
      ensures Valid() && State() == Cache([], map[])
      ensures this.useAzureMaps == useAzureMaps && this.haversine == haversine
      ensures cacheMaxSize == DefaultCacheMaxSize
    {
      this.useAzureMaps := useAzureMaps;
      this.haversine := haversine;
      cacheMaxSize := DefaultCacheMaxSize;
      order := [];
      entries := map[];
    }

    /** `get_straight_distance` */
    function StraightDistance(lat1: real, lon1: real, lat2: real, lon2: real): real {
      haversine(lat1, lon1, lat2, lon2)
    }

    method AddToCache(key: Key, value: Estimate)
      requires Valid() && EntryOk(Settings(), key, value)
      modifies this
      ensures Valid() && State() == Insert(old(State()), cacheMaxSize, key, value)
    {
      InsertValid(State(), Settings(), key, value);
      if |entries| >= cacheMaxSize {
        var first := order[0];
        entries := entries - {first};
        order := order[1..];
      }
      if key !in entries {
        order := order + [key];
      }
      entries := entries[key := value];
    }

    method CalculateDistance(lat1: Option<real>, lon1: Option<real>, lat2: Option<real>, lon2: Option<real>,
                             mode: string, provider: Provider) returns (result: Estimate)
      requires Valid()
      modifies this
      ensures Valid()
      ensures result == Query(old(State()), Settings(), provider, lat1, lon1, lat2, lon2, mode).0
      ensures State() == Query(old(State()), Settings(), provider, lat1, lon1, lat2, lon2, mode).1
    {
      if lat1.None? || lon1.None? || lat2.None? || lon2.None? {
        return Estimate(0.0, 0, NoMethod);
      }
      var key := CacheKey(lat1.value, lon1.value, lat2.value, lon2.value, mode);
      if key in entries {
        return entries[key].(via := FromCache);
      }
      var straight := StraightDistance(lat1.value, lon1.value, lat2.value, lon2.value);
      if !useAzureMaps || straight < ProviderThresholdKm || mode == "walk" {
        result := StraightEstimate(straight, mode);
      } else {
        var reply := provider(lat1.value, lon1.value, lat2.value, lon2.value, ProviderMode(mode));
        if reply.Routed? {
          result := Estimate(Round2(reply.lengthMeters / 1000.0), Round(reply.travelSeconds / 60.0), ByAzureMaps);
        } else {
          result := StraightEstimate(straight, mode);
        }
      }
      assert result == Fresh(Settings(), provider, lat1.value, lon1.value, lat2.value, lon2.value, mode);
      FreshFits(Settings(), provider, lat1.value, lon1.value, lat2.value, lon2.value, mode);
      AddToCache(key, result);
    }

    /** `cluster_places(places, k)` */
    method ClusterPlaces(places: seq<Place>, k: int) returns (clusters: seq<seq<Place>>)
      ensures clusters == KMeans.Clusters(haversine, places, k)
    {
      if places == [] || k <= 0 {
        return [];
      }
      if |places| <= k {
        return KMeans.Singletons(places);
      }
      clusters := Relocations(places, k);
    }

    /** The ten rounds of assignment and relocation, from the first k places'
        coordinates; the clusters are those of the last assignment. */
    method Relocations(places: seq<Place>, k: nat) returns (clusters: seq<seq<Place>>)
      requires 0 < k < |places|
      ensures clusters == KMeans.Groups(haversine, places, KMeans.CentroidsAfter(haversine, places, k, KMeans.Rounds - 1), k)
    {
      var centroids := KMeans.Initial(places, k);
      clusters := [];
      for round := 0 to KMeans.Rounds
        invariant centroids == KMeans.CentroidsAfter(haversine, places, k, round)
        invariant 0 < round ==> clusters == KMeans.Groups(haversine, places, KMeans.CentroidsAfter(haversine, places, k, round - 1), k)
      {
        var newClusters := Assign(places, centroids);
        var newCentroids := Relocated(newClusters, centroids);
        KMeans.UpdateFromGroups(haversine, places, centroids, newClusters, newCentroids);
        centroids := newCentroids;
        clusters := newClusters;
      }
    }

    /** One assignment round: each place joins the first nearest centroid. */
    method Assign(places: seq<Place>, centroids: seq<KMeans.Centroid>) returns (groups: seq<seq<Place>>)
      requires 0 < |centroids|
      ensures groups == KMeans.Groups(haversine, places, centroids, |centroids|)
    {
      var k := |centroids|;
      groups := seq(k, _ => []);
      for j := 0 to |places|
        invariant groups == KMeans.Groups(haversine, places[..j], centroids, k)
      {
        var p := places[j];
        var best := 0;
        var least: Option<real> := None;
        ghost var ds := KMeans.Distances(haversine, p, centroids);
        for i := 0 to k
          invariant FirstMinFrom(ds, i, best, least) == FirstMin(ds)
          invariant i == 0 ==> least.None? && best == 0
          invariant 0 < i ==> best < i
        {
          var d := haversine(p.lat, p.lon, centroids[i].0, centroids[i].1);
          assert d == ds[i];
          if least.None? || d < least.value {
            least := Some(d);
            best := i;
          }
        }
        KMeans.GroupsSnoc(haversine, places[..j], p, centroids, k);
        assert places[..j + 1] == places[..j] + [p];
        groups := groups[best := groups[best] + [p]];
      }
      assert places[..|places|] == places;
    }

    /** The centroid update: the mean of each cluster, or the cluster's old
        centroid when it is empty. */
    method Relocated(clusters: seq<seq<Place>>, centroids: seq<KMeans.Centroid>) returns (next: seq<KMeans.Centroid>)
      requires |clusters| == |centroids|
      ensures |next| == |centroids|
      ensures forall c :: 0 <= c < |centroids| ==> next[c] == KMeans.Relocate(clusters[c], centroids[c])
    {
      next := [];
      for c := 0 to |clusters|
        invariant |next| == c
        invariant forall j :: 0 <= j < c ==> next[j] == KMeans.Relocate(clusters[j], centroids[j])
      {
        var cluster := clusters[c];
        if cluster == [] {
          next := next + [centroids[|next|]];
        } else {
          var sumLat, sumLon := MemberSums(cluster);
          next := next + [(sumLat / |cluster| as real, sumLon / |cluster| as real)];
        }
      }
    }

    /** The coordinate sums of a cluster. */
    method MemberSums(cluster: seq<Place>) returns (sumLat: real, sumLon: real)
      ensures sumLat == KMeans.SumLat(cluster) && sumLon == KMeans.SumLon(cluster)
    {
      sumLat, sumLon := 0.0, 0.0;
      for i := 0 to |cluster|
        invariant sumLat == KMeans.SumLat(cluster[..i]) && sumLon == KMeans.SumLon(cluster[..i])
      {
        assert cluster[..i + 1][..i] == cluster[..i];
        sumLat := sumLat + cluster[i].lat;
        sumLon := sumLon + cluster[i].lon;
      }
      assert cluster[..|cluster|] == cluster;
    }

    /** `optimize_route(places, start_location)` */
    method OptimizeRoute(places: seq<Place>, start: Option<Place>, provider: Provider) returns (route: seq<Place>)
      requires Valid()
      modifies this
      ensures Valid()
      ensures route == Route(old(State()), Settings(), provider, places, start).0
      ensures State() == Route(old(State()), Settings(), provider, places, start).1
    {
      if places == [] {
        return [];
      }
      ghost var cfg := Settings();
      ghost var goal := Route(State(), cfg, provider, places, start).0;
      ghost var final := Route(State(), cfg, provider, places, start).1;
      var unvisited := places;
      var current: Place;
      if start.Some? {
        current := start.value;
      } else {
        current := unvisited[BestScoredIndex(unvisited)];
        unvisited := RemoveFirst(unvisited, current);
      }
      route := [current];
      while unvisited != []
        invariant Valid()
        invariant goal == route + Walk(State(), cfg, provider, current, unvisited).0
        invariant final == Walk(State(), cfg, provider, current, unvisited).1
        decreases |unvisited|
      {
        ghost var before := State();
        var nearest := NearestUnvisited(current, unvisited, provider);
        WalkStep(before, cfg, provider, current, unvisited);
        AppendAssoc(route, [nearest], Walk(State(), cfg, provider, nearest, RemoveFirst(unvisited, nearest)).0);
        route := route + [nearest];
        unvisited := RemoveFirst(unvisited, nearest);
        current := nearest;
      }
      AppendEmpty(route);
    }

    /** The inner loop of `optimize_route`: ask the distance to every unvisited
        place and keep the first nearest. */
    method NearestUnvisited(current: Place, unvisited: seq<Place>, provider: Provider) returns (nearest: Place)
      requires Valid() && unvisited != []
      modifies this
      ensures Valid()
      ensures nearest == unvisited[FirstMin(Scan(old(State()), Settings(), provider, current, unvisited).0)]
      ensures State() == Scan(old(State()), Settings(), provider, current, unvisited).1
    {
      ghost var cfg := Settings();
      ghost var dists := Scan(State(), cfg, provider, current, unvisited).0;
      ghost var last := Scan(State(), cfg, provider, current, unvisited).1;
      ghost var seen: seq<real> := [];
      var best := 0;
      var least: Option<real> := None;
      ScanAtStart(State(), cfg, provider, current, unvisited);
      for j := 0 to |unvisited|
        invariant Valid()
        invariant ScanAt(State(), cfg, provider, current, unvisited, j, seen, dists, last)
        invariant FirstMinFrom(dists, j, best, least) == FirstMin(dists)
        invariant j == 0 ==> least.None? && best == 0
        invariant 0 < j ==> best < j
      {
        var dist := ScanOne(current, unvisited, j, provider, dists, last, seen);
        FirstMinFromStep(dists, j, best, least);
        seen := seen + [dist];
        if least.None? || dist < least.value {
          least := Some(dist);
          best := j;
        }
      }
      ScanAtEnd(State(), cfg, provider, current, unvisited, seen, dists, last);
      nearest := unvisited[best];
    }

    /** One query of the inner loop: the distance to `unvisited[j]`, which is
        the scan's j-th distance, the scan going on from the cache it leaves. */
    method ScanOne(current: Place, unvisited: seq<Place>, j: nat, provider: Provider,
                   ghost dists: seq<real>, ghost last: Cache, ghost seen: seq<real>) returns (dist: real)
      requires Valid() && j < |unvisited|
      requires ScanAt(State(), Settings(), provider, current, unvisited, j, seen, dists, last)
      modifies this
      ensures Valid()
      ensures ScanAt(State(), Settings(), provider, current, unvisited, j + 1, seen + [dist], dists, last)
      ensures dists[j] == dist
    {
      ghost var here := State();
      var result := CalculateDistance(Some(current.lat), Some(current.lon),
                                      Some(unvisited[j].lat), Some(unvisited[j].lon), "public", provider);
      dist := result.distanceKm;
      ScanAdvance(dists, last, seen, here, Settings(), provider, current, unvisited, j, result, State());
    }
  }
}
