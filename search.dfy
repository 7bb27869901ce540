// The place search: scoring a candidate against the user's destination, styles
// and requirements, the priority search over the places loaded for a
// destination (budget filter, score threshold, descending stable sort), the
// destination alias table, and the per-destination cache with its one-hour
// time to live.
module Search {
  import opened Common

  // ---------------------------------------------------------------------
  // Similar keywords and the score of one place

  /** The styles `get_similar_keywords` knows. */
  const KnownStyles: set<string> := {"힐링", "맛집 투어", "역사위주", "카페 투어", "팝업 스토어", "로맨틱한 장소", "액티비티"}

  /** `get_similar_keywords(style)`: the tags that count as half a match for a
      style; none for a style outside the table. */
  function SimilarKeywords(style: string): (r: seq<string>)
    ensures r != [] <==> style in KnownStyles
  {
    if style == "힐링" then ["자연", "조용한", "휴식", "스파", "산책"]
    else if style == "맛집 투어" then ["전통음식", "로컬맛집", "음식", "해산물"]
    else if style == "역사위주" then ["문화체험", "전통", "유적지", "박물관"]
    else if style == "카페 투어" then ["카페", "디저트", "커피"]
    else if style == "팝업 스토어" then ["전시", "쇼핑", "트렌디", "갤러리"]
    else if style == "로맨틱한 장소" then ["커플", "데이트", "야경", "로맨틱"]
    else if style == "액티비티" then ["체험", "등산", "해변", "수영"]
    else []
  }

  ghost predicate SomeIn(keywords: seq<string>, tags: seq<string>) {
    exists k :: k in keywords && k in tags
  }

  /** What one style adds to the match count: 1 for the style among the
      tags, else 0.5 when one of its similar keywords is, else 0. */
  ghost function StyleCredit(style: string, tags: seq<string>): (r: real)
    ensures r == 1.0 <==> style in tags
    ensures r == 0.5 <==> style !in tags && SomeIn(SimilarKeywords(style), tags)
    ensures r == 0.0 <==> style !in tags && !SomeIn(SimilarKeywords(style), tags)
  {
    if style in tags then 1.0
    else if SomeIn(SimilarKeywords(style), tags) then 0.5
    else 0.0
  }

  /** `matched_styles` after the styles loop. */
  ghost function StyleMatches(styles: seq<string>, tags: seq<string>): (r: real)
    ensures 0.0 <= r <= |styles| as real
  {
    if styles == [] then 0.0
    else StyleMatches(styles[..|styles| - 1], tags) + StyleCredit(styles[|styles| - 1], tags)
  }

  /** `matched_count` after the requirements loop. */
  function RequirementMatches(reqs: seq<string>, tags: seq<string>): (r: nat)
    ensures r <= |reqs|
  {
    if reqs == [] then 0
    else RequirementMatches(reqs[..|reqs| - 1], tags) + (if reqs[|reqs| - 1] in tags then 1 else 0)
  }

  /** `calculate_place_score`: 0 for another destination; else 50, plus 30
      times the share of styles matched, plus 20 times the share of
      requirements among the tags; an empty list adds nothing. So a place at
      the user's destination scores from 50 to 100, any other place 0, and a
      score of at least 50 means exactly that the destination matches. */
  ghost function PlaceScore(p: Place, destination: string, styles: seq<string>, reqs: seq<string>): (r: real)
    ensures p.destination != destination ==> r == 0.0
    ensures p.destination == destination ==> 50.0 <= r <= 100.0
    ensures r >= 50.0 <==> p.destination == destination
  {
    if p.destination != destination then 0.0
    else
      StyleShare(styles, p.tags);
      RequirementShare(reqs, p.tags);
      50.0
      + (if styles == [] then 0.0 else StyleMatches(styles, p.tags) / |styles| as real * 30.0)
      + (if reqs == [] then 0.0 else RequirementMatches(reqs, p.tags) as real / |reqs| as real * 20.0)
  }

  lemma ShareBounds(m: real, n: nat, weight: real)
    requires 0.0 <= m <= n as real && 0 < n && 0.0 <= weight
    ensures 0.0 <= m / n as real * weight <= weight
  {
    var share := m / n as real;
    assert share <= 1.0;
    assert share * weight <= 1.0 * weight;
  }

  /** The styles add between 0 and 30 points. */
  lemma StyleShare(styles: seq<string>, tags: seq<string>)
    ensures 0.0 <= (if styles == [] then 0.0 else StyleMatches(styles, tags) / |styles| as real * 30.0) <= 30.0
  {
    if styles != [] {
      ShareBounds(StyleMatches(styles, tags), |styles|, 30.0);
    }
  }

  /** The requirements add between 0 and 20 points. */
  lemma RequirementShare(reqs: seq<string>, tags: seq<string>)
    ensures 0.0 <= (if reqs == [] then 0.0 else RequirementMatches(reqs, tags) as real / |reqs| as real * 20.0) <= 20.0
  {
    if reqs != [] {
      ShareBounds(RequirementMatches(reqs, tags) as real, |reqs|, 20.0);
    }
  }

  lemma {:induction false} AllStylesMatch(styles: seq<string>, tags: seq<string>)
    requires forall s :: s in styles ==> s in tags
    ensures StyleMatches(styles, tags) == |styles| as real
  {
    if styles != [] {
      AllStylesMatch(styles[..|styles| - 1], tags);
    }
  }

  lemma {:induction false} AllRequirementsMatch(reqs: seq<string>, tags: seq<string>)
    requires forall s :: s in reqs ==> s in tags
    ensures RequirementMatches(reqs, tags) == |reqs|
  {
    if reqs != [] {
      AllRequirementsMatch(reqs[..|reqs| - 1], tags);
    }
  }

  /** A place at the destination carrying every style and every requirement
      as a tag gets the full 100. */
  lemma FullMatchScoresHundred(p: Place, destination: string, styles: seq<string>, reqs: seq<string>)
    requires p.destination == destination && styles != [] && reqs != []
    requires forall s :: s in styles ==> s in p.tags
    requires forall s :: s in reqs ==> s in p.tags
    ensures PlaceScore(p, destination, styles, reqs) == 100.0
  {
    AllStylesMatch(styles, p.tags);
    AllRequirementsMatch(reqs, p.tags);
    FullShare(|styles|, 30.0);
    FullShare(|reqs|, 20.0);
  }

  /** A full share of a weight is the whole weight. */
  lemma FullShare(n: nat, weight: real)
    requires 0 < n
    ensures n as real / n as real * weight == weight
  {
  }

  /** The inner loop over the similar keywords, leaving at the first one
      among the tags. */
  method CreditOf(style: string, tags: seq<string>) returns (credit: real)
    ensures credit == StyleCredit(style, tags)
  {
    if style in tags {
      return 1.0;
    }
    credit := 0.0;
    var keywords := SimilarKeywords(style);
    var j := 0;
    while j < |keywords|
      invariant 0 <= j <= |keywords|
      invariant forall i :: 0 <= i < j ==> keywords[i] !in tags
    {
      if keywords[j] in tags {
        credit := 0.5;
        break;
      }
      j := j + 1;
    }
    if credit == 0.0 {
      assert forall k :: k in keywords ==> k !in tags;
    }
  }

  /** `calculate_place_score`, accumulating the style and requirement
      matches in loops. */
  method CalculatePlaceScore(p: Place, destination: string, styles: seq<string>, reqs: seq<string>)
    returns (score: real)
    ensures score == PlaceScore(p, destination, styles, reqs)
  {
    if p.destination != destination {
      return 0.0;
    }
    score := 50.0;
    if styles != [] {
      var matched := 0.0;
      for i := 0 to |styles|
        invariant matched == StyleMatches(styles[..i], p.tags)
      {
        assert styles[..i + 1][..i] == styles[..i];
        var credit := CreditOf(styles[i], p.tags);
        matched := matched + credit;
      }
      assert styles[..|styles|] == styles;
      score := score + matched / |styles| as real * 30.0;
    }
    if reqs != [] {
      var count := 0;
      for i := 0 to |reqs|
        invariant count == RequirementMatches(reqs[..i], p.tags)
      {
        assert reqs[..i + 1][..i] == reqs[..i];
        if reqs[i] in p.tags {
          count := count + 1;
        }
      }
      assert reqs[..|reqs|] == reqs;
      score := score + count as real / |reqs| as real * 20.0;
    }
  }

  // ---------------------------------------------------------------------
  // `search_places_with_priority` over the places loaded for a destination

  /** `p.get('price_level', 2)` */
  function PriceOf(p: Place): int {
    p.priceLevel.GetOr(2)
  }

  /** The budget filter `[p for p in all_places if p.get('price_level', 2) <= price_level]`. */
  function Affordable(ps: seq<Place>, level: int): (r: seq<Place>)
    ensures |r| <= |ps|
    ensures forall p :: p in r <==> p in ps && PriceOf(p) <= level
  {
    if ps == [] then []
    else Affordable(ps[..|ps| - 1], level) + (if PriceOf(ps[|ps| - 1]) <= level then [ps[|ps| - 1]] else [])
  }

  /** The scoring loop: each candidate scoring at least 50, with its score
      written into it, in the candidates' order. */
  ghost function Kept(cs: seq<Place>, destination: string, styles: seq<string>, reqs: seq<string>): (r: seq<Place>)
    ensures |r| <= |cs|
  {
    if cs == [] then []
    else
      var p := cs[|cs| - 1];
      var score := PlaceScore(p, destination, styles, reqs);
      Kept(cs[..|cs| - 1], destination, styles, reqs) + (if score >= 50.0 then [p.(score := Some(score))] else [])
  }

  /** `list.sort(key=score, reverse=True)` is stable: a place goes after every
      earlier one scoring at least as much. */
  function Insert(x: Place, s: seq<Place>): (r: seq<Place>)
    ensures multiset(r) == multiset(s) + multiset{x}
  {
    if s == [] then [x]
    else if ScoreOf(s[0]) >= ScoreOf(x) then
      assert s == [s[0]] + s[1..];
      [s[0]] + Insert(x, s[1..])
    else [x] + s
  }

  function SortByScore(ps: seq<Place>): (r: seq<Place>)
    ensures multiset(r) == multiset(ps)
  {
    if ps == [] then []
    else
      assert ps == ps[..|ps| - 1] + [ps[|ps| - 1]];
      Insert(ps[|ps| - 1], SortByScore(ps[..|ps| - 1]))
  }

  ghost predicate Descending(s: seq<Place>) {
    forall i, j :: 0 <= i < j < |s| ==> ScoreOf(s[i]) >= ScoreOf(s[j])
  }

  lemma {:induction false} InsertDescending(x: Place, s: seq<Place>)
    requires Descending(s)
    ensures Descending(Insert(x, s))
    decreases |s|
  {
    if s != [] && ScoreOf(s[0]) >= ScoreOf(x) {
      InsertDescending(x, s[1..]);
      var r := Insert(x, s);
      assert r == [s[0]] + Insert(x, s[1..]);
      forall j | 0 < j < |r|
        ensures ScoreOf(r[0]) >= ScoreOf(r[j])
      {
        assert r[j] in multiset(Insert(x, s[1..]));
        assert r[j] in multiset(s[1..]) + multiset{x};
        if r[j] != x {
          assert r[j] in s[1..];
        }
      }
    }
  }

  /** The search result runs from the highest score down. */
  lemma {:induction false} SortedDescending(ps: seq<Place>)
    ensures Descending(SortByScore(ps))
  {
    if ps != [] {
      SortedDescending(ps[..|ps| - 1]);
      InsertDescending(ps[|ps| - 1], SortByScore(ps[..|ps| - 1]));
    }
  }

  /** The places scoring exactly `v`, in order. */
  function WithScore(s: seq<Place>, v: real): (r: seq<Place>) {
    if s == [] then []
    else WithScore(s[..|s| - 1], v) + (if ScoreOf(s[|s| - 1]) == v then [s[|s| - 1]] else [])
  }

  lemma {:induction false} WithScoreCons(x: Place, s: seq<Place>, v: real)
    ensures WithScore([x] + s, v) == Own(x, v) + WithScore(s, v)
    decreases |s|
  {
    if s != [] {
      var t := [x] + s;
      assert t[..|t| - 1] == [x] + s[..|s| - 1];
      WithScoreCons(x, s[..|s| - 1], v);
    } else {
      assert [x] + s == [x];
      assert WithScore([x], v) == WithScore([], v) + (if ScoreOf(x) == v then [x] else []);
    }
  }

  lemma {:induction false} WithScoreNone(s: seq<Place>, v: real)
    requires forall i :: 0 <= i < |s| ==> ScoreOf(s[i]) < v
    ensures WithScore(s, v) == []
  {
    if s != [] {
      WithScoreNone(s[..|s| - 1], v);
    }
  }

  /** The places of score `v` among `[x]`. */
  function Own(x: Place, v: real): seq<Place> {
    if ScoreOf(x) == v then [x] else []
  }

  /** Inserting adds the place after every place of its own score. */
  lemma {:induction false} InsertStable(x: Place, s: seq<Place>, v: real)
    requires Descending(s)
    ensures WithScore(Insert(x, s), v) == WithScore(s, v) + Own(x, v)
    decreases |s|
  {
    if s == [] {
      assert Insert(x, s) == [x];
      assert WithScore([x], v) == WithScore([], v) + Own(x, v);
    } else if ScoreOf(s[0]) >= ScoreOf(x) {
      var rest := s[1..];
      assert s == [s[0]] + rest;
      assert Descending(rest) by {
        forall i, j | 0 <= i < j < |rest|
          ensures ScoreOf(rest[i]) >= ScoreOf(rest[j])
        {
          assert rest[i] == s[i + 1] && rest[j] == s[j + 1];
        }
      }
      var ins := Insert(x, rest);
      assert Insert(x, s) == [s[0]] + ins;
      InsertStable(x, rest, v);
      WithScoreCons(s[0], ins, v);
      WithScoreCons(s[0], rest, v);
      AppendAssoc(Own(s[0], v), WithScore(rest, v), Own(x, v));
    } else {
      assert Insert(x, s) == [x] + s;
      WithScoreCons(x, s, v);
      if ScoreOf(x) == v {
        WithScoreNone(s, v);
      }
    }
  }

  /** Places of equal score keep the order they had: the sort is stable. */
  lemma {:induction false} SortStable(ps: seq<Place>, v: real)
    ensures WithScore(SortByScore(ps), v) == WithScore(ps, v)
  {
    if ps != [] {
      var init, x := ps[..|ps| - 1], ps[|ps| - 1];
      var s := SortByScore(init);
      assert SortByScore(ps) == Insert(x, s);
      SortStable(init, v);
      SortedDescending(init);
      InsertStable(x, s, v);
    }
  }

  /** `search_places_with_priority` over `all`, the places loaded for the
      destination: no more places than were loaded, highest score first. */
  ghost function SearchResult(all: seq<Place>, destination: string, styles: seq<string>, reqs: seq<string>, level: int): (r: seq<Place>)
    ensures |r| <= |all| && Descending(r)
  {
    var kept := Kept(Affordable(all, level), destination, styles, reqs);
    SortedDescending(kept);
    assert |SortByScore(kept)| == |multiset(SortByScore(kept))| == |kept|;
    SortByScore(kept)
  }

  lemma {:induction false} KeptMembers(cs: seq<Place>, destination: string, styles: seq<string>, reqs: seq<string>)
    ensures forall p :: p in Kept(cs, destination, styles, reqs) <==>
      exists q :: q in cs && q.destination == destination && p == q.(score := Some(PlaceScore(q, destination, styles, reqs)))
  {
    if cs != [] {
      var init := cs[..|cs| - 1];
      var last := cs[|cs| - 1];
      KeptMembers(init, destination, styles, reqs);
      assert cs == init + [last];
      forall q | q in cs
        ensures q in init || q == last
      {
      }
    }
  }

  /** The search keeps exactly the places within the price level whose
      destination is the user's (those are the ones scoring 50 or more), each
      with its score written in, and lists them from the highest score down. */
  lemma SearchKeepsExactly(all: seq<Place>, destination: string, styles: seq<string>, reqs: seq<string>, level: int)
    ensures var r := SearchResult(all, destination, styles, reqs, level);
      && Descending(r)
      && (forall p :: p in r <==>
            exists q :: q in all && PriceOf(q) <= level && q.destination == destination
                     && p == q.(score := Some(PlaceScore(q, destination, styles, reqs))))
  {
    var cs := Affordable(all, level);
    var kept := Kept(cs, destination, styles, reqs);
    SortedDescending(kept);
    KeptMembers(cs, destination, styles, reqs);
    assert multiset(SortByScore(kept)) == multiset(kept);
    forall p
      ensures p in SortByScore(kept) <==> p in kept
    {
      assert p in SortByScore(kept) <==> p in multiset(SortByScore(kept));
      assert p in kept <==> p in multiset(kept);
    }
  }

  /** The scoring loop of the search. */
  method ScoreCandidates(cs: seq<Place>, destination: string, styles: seq<string>, reqs: seq<string>)
    returns (scored: seq<Place>)
    ensures scored == Kept(cs, destination, styles, reqs)
  {
    scored := [];
    for i := 0 to |cs|
      invariant scored == Kept(cs[..i], destination, styles, reqs)
    {
      assert cs[..i + 1][..i] == cs[..i];
      var score := CalculatePlaceScore(cs[i], destination, styles, reqs);
      if score >= 50.0 {
        scored := scored + [cs[i].(score := Some(score))];
      }
    }
    assert cs[..|cs|] == cs;
  }

  /** The body of `search_places_with_priority` after loading: filter by
      price level, score, keep, sort. */
  method PrioritySearch(all: seq<Place>, destination: string, styles: seq<string>, reqs: seq<string>, level: int)
    returns (result: seq<Place>)
    ensures result == SearchResult(all, destination, styles, reqs, level)
  {
    var candidates := Affordable(all, level);
    var scored := ScoreCandidates(candidates, destination, styles, reqs);
    result := SortByScore(scored);
  }

  // ---------------------------------------------------------------------
  // The destination alias table of the database query

  /** `destination_map.get(destination, destination)`: '제주도' is stored as
      '제주', the other listed cities as themselves, and any other name is
      searched as given. */
  function SearchTerm(destination: string): (r: string)
    ensures destination == "제주도" ==> r == "제주"
    ensures destination != "제주도" ==> r == destination
  {
    var aliases := map["서울" := "서울", "제주도" := "제주", "제주" := "제주", "부산" := "부산",
                       "인천" := "인천", "대전" := "대전", "대구" := "대구", "광주" := "광주"];
    if destination in aliases then aliases[destination] else destination
  }

  /** Looking a name up twice is looking it up once. */
  lemma SearchTermIdempotent(destination: string)
    ensures SearchTerm(SearchTerm(destination)) == SearchTerm(destination)
  {
    if destination == "제주도" {
      assert SearchTerm("제주") == "제주";
    }
  }

  // ---------------------------------------------------------------------
  // The destination cache

  /** The cached places of a destination and when they were stored, in
      seconds. */
  datatype Entry = Entry(places: seq<Place>, storedAt: real)

  /** `cache_ttl`: an entry older than an hour is stale. */
  const Ttl: real := 3600.0

  predicate Expired(e: Entry, now: real)
    ensures !Expired(e, now) <==> now <= e.storedAt + Ttl
  {
    now - e.storedAt > Ttl
  }

  /** The cache after dropping every stale entry. */
  function Unexpired(m: map<string, Entry>, now: real): (r: map<string, Entry>)
    ensures r.Keys <= m.Keys
    ensures forall k :: k in r ==> r[k] == m[k] && !Expired(m[k], now)
    ensures forall k :: k in m && !Expired(m[k], now) ==> k in r
  {
    map k | k in m && !Expired(m[k], now) :: m[k]
  }

  /** The entries of `m` whose keys are not listed in `ks`. */
  ghost function Without(m: map<string, Entry>, ks: seq<string>): map<string, Entry> {
    map k | k in m && k !in ks :: m[k]
  }

  /** Deleting one more key is leaving out one more key. */
  lemma WithoutOneMore(m: map<string, Entry>, ks: seq<string>, k: string)
    ensures Without(m, ks) - {k} == Without(m, ks + [k])
  {
    assert forall x :: x in ks + [k] <==> x in ks || x == k;
  }

  /** Cleaning twice at the same time is cleaning once. */
  lemma CleanupIdempotent(m: map<string, Entry>, now: real)
    ensures Unexpired(Unexpired(m, now), now) == Unexpired(m, now)
  {
  }

  /** Cleaning later keeps no more than cleaning earlier. */
  lemma CleanupLaterKeepsLess(m: map<string, Entry>, t1: real, t2: real)
    requires t1 <= t2
    ensures Unexpired(m, t2).Keys <= Unexpired(m, t1).Keys
  {
  }

  /** The cache after a miss on `destination`: any stale entry for it is
      gone, the fetched places are stored unless there are none, and the
      stale entries are cleaned when the size is a multiple of ten. */
  ghost function AfterMiss(m: map<string, Entry>, destination: string, fetched: seq<Place>, now: real): (r: map<string, Entry>)
    ensures destination in r <==> fetched != []
    ensures fetched != [] ==> r[destination] == Entry(fetched, now)
    ensures forall k :: k in r && k != destination ==> k in m && r[k] == m[k]
    ensures forall k :: k in m && k != destination && !Expired(m[k], now) ==> k in r
  {
    var pruned := m - {destination};
    var stored := if fetched != [] then pruned[destination := Entry(fetched, now)] else pruned;
    assert forall k :: k in stored && k != destination ==> k in m && stored[k] == m[k];
    assert forall k :: k in m && k != destination ==> k in stored;
    if |stored| % 10 == 0 then Unexpired(stored, now) else stored
  }

  /** The cache of a `SearchService`: one entry per destination. */
  class SearchService {
    var cache: map<string, Entry>

    constructor()
      ensures cache == map[]
    {
      cache := map[];
    }

    /** `_is_cache_valid(destination)` at time `now`: false for an absent
        destination; false for a stale entry, which is deleted; true
        otherwise, leaving the cache as it was. */
    method IsCacheValid(destination: string, now: real) returns (valid: bool)
      modifies this
      ensures valid <==> destination in old(cache) && !Expired(old(cache)[destination], now)
      ensures destination in old(cache) && Expired(old(cache)[destination], now) ==> cache == old(cache) - {destination}
      ensures !(destination in old(cache) && Expired(old(cache)[destination], now)) ==> cache == old(cache)
      ensures !valid ==> cache == old(cache) - {destination}
    {
      if destination !in cache {
        assert cache - {destination} == cache;
        return false;
      }
      if Expired(cache[destination], now) {
        cache := cache - {destination};
        return false;
      }
      return true;
    }

    /** `_cleanup_expired_cache()` at time `now`: gather the stale
        destinations, then delete them. */
    method CleanupExpiredCache(now: real)
      modifies this
      ensures cache == Unexpired(old(cache), now)
    {
      var expired: seq<string> := [];
      var seen: set<string> := {};
      while seen != cache.Keys
        invariant seen <= cache.Keys
        invariant forall k :: k in expired <==> k in seen && Expired(cache[k], now)
        decreases |cache.Keys - seen|
      {
        var k :| k in cache.Keys - seen;
        if Expired(cache[k], now) {
          expired := expired + [k];
        }
        seen := seen + {k};
      }
      ghost var before := cache;
      for i := 0 to |expired|
        invariant cache == Without(before, expired[..i])
      {
        WithoutOneMore(before, expired[..i], expired[i]);
        assert expired[..i + 1] == expired[..i] + [expired[i]];
        cache := cache - {expired[i]};
      }
      assert expired[..|expired|] == expired;
    }

    /** `_load_places_by_destination_async(destination)` at time `now`, run
        alone: a fresh cache entry answers; otherwise the `fetched` places
        (what the query returns) are stored if there are any, and when the
        cache size is then a multiple of ten the stale entries are cleaned. */
    method LoadPlaces(destination: string, now: real, fetched: seq<Place>) returns (places: seq<Place>)
      modifies this
      ensures destination in old(cache) && !Expired(old(cache)[destination], now) ==>
        places == old(cache)[destination].places && cache == old(cache)
      ensures !(destination in old(cache) && !Expired(old(cache)[destination], now)) ==>
        places == fetched && cache == AfterMiss(old(cache), destination, fetched, now)
    {
      var valid := IsCacheValid(destination, now);
      if valid {
        return cache[destination].places;
      }
      places := fetched;
      if fetched != [] {
        cache := cache[destination := Entry(fetched, now)];
      }
      if |cache| % 10 == 0 {
        CleanupExpiredCache(now);
      }
    }

    /** `search_places_with_priority(destination, travel_styles,
        requirements, price_level)`: load the destination's places through
        the cache, then rank them. */
    method SearchPlacesWithPriority(destination: string, styles: seq<string>, reqs: seq<string>, level: int,
                                    now: real, fetched: seq<Place>)
      returns (result: seq<Place>, ghost loaded: seq<Place>)
      modifies this
      ensures destination in old(cache) && !Expired(old(cache)[destination], now) ==>
        loaded == old(cache)[destination].places && cache == old(cache)
      ensures !(destination in old(cache) && !Expired(old(cache)[destination], now)) ==>
        loaded == fetched && cache == AfterMiss(old(cache), destination, fetched, now)
      ensures result == SearchResult(loaded, destination, styles, reqs, level)
    {
      var all := LoadPlaces(destination, now, fetched);
      loaded := all;
      result := PrioritySearch(all, destination, styles, reqs, level);
    }
  }
}
