// The planning tools: the lookups over the built-in sample table, and the
// itinerary tool that searches the destination's places, takes the first
// five per day as the trip and the next twenty as alternatives, plans the
// trip, and shapes the answer (moving the clustering report out of day 1
// into the debug block when debug output is asked for).
module Tools {
  import opened Common
  import opened Routing
  import opened Itinerary
  import Search

  // ---------------------------------------------------------------------
  // `SAMPLE_PLACES` and the lookups over it

  /** One sample place: name, category, description, recommended duration. */
  datatype Sample = Sample(name: string, category: string, description: string, duration: string)

  /** The table, destination by destination and type by type, in the order
      the dictionaries list them. Every destination offers at least one type
      and every type at least one place. */
  function SamplePlaces(): (r: seq<(string, seq<(string, seq<Sample>)>)>)
    ensures |r| == 3 && NoEmptyList(r)
  {
    [
    ("서울", [
      ("음식", [
        Sample("광장시장", "전통시장", "서울의 대표 전통시장, 빈대떡과 마약김밥이 유명", "1-2시간"),
        Sample("이태원 맛집거리", "레스토랑거리", "다양한 세계 음식을 맛볼 수 있는 이태원", "2-3시간"),
        Sample("망원동 카페거리", "카페거리", "감성 넘치는 카페들이 즐비한 망원동", "1-2시간")]),
      ("관광", [
        Sample("경복궁", "역사유적", "조선 왕조의 법궁으로 서울의 대표 관광지", "2-3시간"),
        Sample("남산타워", "전망대", "서울의 야경을 한눈에 볼 수 있는 남산타워", "1-2시간"),
        Sample("북촌 한옥마을", "문화유산", "전통 한옥이 보존된 아름다운 마을", "1-2시간")]),
      ("힐링", [
        Sample("한강공원", "공원", "서울 시민들의 휴식 공간, 자전거와 피크닉 명소", "2-4시간"),
        Sample("서울숲", "공원", "도심 속 자연을 만끽할 수 있는 대형 공원", "2-3시간")]),
      ("액티비티", [
        Sample("롯데월드", "테마파크", "실내외 놀이기구를 즐길 수 있는 테마파크", "4-6시간"),
        Sample("한강 수상레저", "수상스포츠", "카약, 패들보드 등 다양한 수상 액티비티", "2-3시간")])]),
    ("제주도", [
      ("힐링", [
        Sample("협재 해수욕장", "해변", "에메랄드빛 바다와 고운 모래가 아름다운 해변", "2-3시간"),
        Sample("한라산 둘레길", "트레킹", "제주의 자연을 느끼며 걸을 수 있는 숲길", "3-4시간"),
        Sample("곽지과물", "카페", "바다 전망이 아름다운 제주 감성 카페", "1-2시간")]),
      ("음식", [
        Sample("동문시장", "전통시장", "제주 토속 음식과 해산물을 맛볼 수 있는 시장", "1-2시간"),
        Sample("흑돼지거리", "음식거리", "제주 대표 음식인 흑돼지 구이를 맛볼 수 있는 거리", "1-2시간")]),
      ("관광", [
        Sample("성산일출봉", "자연경관", "UNESCO 세계자연유산, 일출 명소", "2-3시간"),
        Sample("우도", "섬", "제주 옆 작은 섬, 자전거 투어 명소", "4-5시간")]),
      ("액티비티", [
        Sample("제주 올레길", "트레킹", "제주 해안을 따라 걷는 26개 코스", "4-6시간"),
        Sample("스쿠버다이빙", "수상스포츠", "제주 바다 속 세상을 탐험", "2-3시간")])]),
    ("부산", [
      ("관광", [
        Sample("해운대 해수욕장", "해변", "한국 최고의 해수욕장, 백사장과 야경이 아름다움", "2-3시간"),
        Sample("감천 문화마을", "문화관광", "알록달록한 집들이 모여있는 예술 마을", "2-3시간")]),
      ("음식", [
        Sample("자갈치 시장", "전통시장", "한국 최대 수산시장, 신선한 해산물", "1-2시간"),
        Sample("광안리 횟집거리", "음식거리", "신선한 회와 바다 전망을 함께 즐기는 거리", "2-3시간")]),
      ("힐링", [
        Sample("태종대", "자연경관", "절벽과 바다가 어우러진 부산의 명소", "2-3시간"),
        Sample("이기대 해안산책로", "산책로", "바다를 보며 걷는 아름다운 산책로", "2-3시간")])])
  ]
  }

  /** A dictionary kept as its items in order: the first entry with the key. */
  function Lookup<V>(items: seq<(string, V)>, key: string): (r: Option<V>)
    ensures r.Some? <==> key in Keys(items)
    ensures r.Some? ==> exists i :: 0 <= i < |items| && items[i] == (key, r.value)
  {
    if items == [] then None
    else if items[0].0 == key then Some(items[0].1)
    else Lookup(items[1..], key)
  }

  /** `list(d.keys())` */
  function Keys<V>(items: seq<(string, V)>): (r: seq<string>)
    ensures |r| == |items|
    ensures forall i :: 0 <= i < |items| ==> r[i] == items[i].0
  {
    if items == [] then [] else [items[0].0] + Keys(items[1..])
  }

  /** `get_supported_destinations()` */
  function SupportedDestinations(): (r: seq<string>)
    ensures r == ["서울", "제주도", "부산"]
  {
    Keys(SamplePlaces())
  }

  /** A destination's types in a nested table: the keys of its entry, none
      for a destination not in the table. */
  function TypesIn<V>(table: seq<(string, seq<(string, seq<V>)>)>, destination: string): (r: seq<string>)
    ensures destination !in Keys(table) ==> r == []
  {
    match Lookup(table, destination)
    case None => []
    case Some(types) => Keys(types)
  }

  /** The list a nested table holds for a destination and a type; none when
      either is missing. */
  function PlacesIn<V>(table: seq<(string, seq<(string, seq<V>)>)>, destination: string, travelType: string)
    : (r: seq<V>)
    ensures destination !in Keys(table) ==> r == []
    ensures travelType !in TypesIn(table, destination) ==> r == []
  {
    match Lookup(table, destination)
    case None => []
    case Some(types) =>
      match Lookup(types, travelType)
      case None => []
      case Some(places) => places
  }

  /** Every destination of a nested table offers at least one type and
      every type at least one entry. */
  ghost predicate NoEmptyList<V>(table: seq<(string, seq<(string, seq<V>)>)>) {
    && (forall i :: 0 <= i < |table| ==> table[i].1 != [])
    && (forall i, j :: 0 <= i < |table| && 0 <= j < |table[i].1| ==> table[i].1[j].1 != [])
  }

  /** In a table whose every list is non-empty, a listed key finds a
      non-empty list. */
  lemma {:induction false} LookupListed<V>(items: seq<(string, seq<V>)>, key: string)
    requires forall i :: 0 <= i < |items| ==> items[i].1 != []
    ensures key in Keys(items) ==> Lookup(items, key).Some? && Lookup(items, key).value != []
  {
    if items != [] && items[0].0 != key {
      LookupListed(items[1..], key);
    }
  }

  /** Without empty lists, a lookup finds entries exactly for a listed
      destination and one of its listed types. */
  lemma PlacesFoundExactly<V>(table: seq<(string, seq<(string, seq<V>)>)>, destination: string, travelType: string)
    requires NoEmptyList(table)
    ensures PlacesIn(table, destination, travelType) != [] <==>
      destination in Keys(table) && travelType in TypesIn(table, destination)
  {
    if destination in Keys(table) && travelType in TypesIn(table, destination) {
      var types := Lookup(table, destination).value;
      var i :| 0 <= i < |table| && table[i] == (destination, types);
      assert forall j :: 0 <= j < |types| ==> types[j].1 != [];
      LookupListed(types, travelType);
    }
  }

  /** Without empty lists, a destination has types exactly when it is
      listed. */
  lemma TypesFoundExactly<V>(table: seq<(string, seq<(string, seq<V>)>)>, destination: string)
    requires NoEmptyList(table)
    ensures TypesIn(table, destination) != [] <==> destination in Keys(table)
  {
    LookupListed(table, destination);
  }

  /** `get_supported_types(destination)`: the destination's types, or none
      for a destination outside the table. */
  function SupportedTypes(destination: string): (r: seq<string>)
    ensures destination !in SupportedDestinations() ==> r == []
  {
    TypesIn(SamplePlaces(), destination)
  }

  /** `search_places(destination, travel_type)`: the stored list, or none
      when the destination or the type is not in the table. */
  function SearchPlaces(destination: string, travelType: string): (r: seq<Sample>)
    ensures destination !in SupportedDestinations() ==> r == []
    ensures travelType !in SupportedTypes(destination) ==> r == []
  {
    PlacesIn(SamplePlaces(), destination, travelType)
  }

  /** A search finds places exactly for a supported destination and one of
      its supported types. */
  lemma SearchFindsSupported(destination: string, travelType: string)
    ensures SearchPlaces(destination, travelType) != [] <==>
      destination in SupportedDestinations() && travelType in SupportedTypes(destination)
  {
    PlacesFoundExactly(SamplePlaces(), destination, travelType);
  }

  /** The types offered for a destination are found exactly when the
      destination is supported. */
  lemma TypesForSupported(destination: string)
    ensures SupportedTypes(destination) != [] <==> destination in SupportedDestinations()
  {
    TypesFoundExactly(SamplePlaces(), destination);
  }

  /** `filter_by_type(places, travel_type)` hands the places back as given. */
  function FilterByType<T>(places: seq<T>, travelType: string): (r: seq<T>)
    ensures r == places
  {
    places
  }

  // ---------------------------------------------------------------------
  // `_generate_travel_itinerary_async`

  /** `candidates[:duration_days * 5]`: the places of the trip, a prefix of
      the candidates; with a day count of zero or more, five per day as far as
      the candidates reach. */
  function Selected(candidates: seq<Place>, days: int): (r: seq<Place>)
    ensures r <= candidates
    ensures 0 <= days ==> |r| == Min(days * 5, |candidates|)
  {
    PySlice(candidates, None, Some(days * 5))
  }

  /** `candidates[max_places:max_places + 20]`: the alternatives, at most
      twenty of the candidates that follow the trip's places. */
  function Alternatives(candidates: seq<Place>, days: int): (r: seq<Place>)
    ensures |r| <= 20
    ensures r <= candidates[|Selected(candidates, days)|..]
  {
    PySlice(candidates, Some(days * 5), Some(days * 5 + 20))
  }

  /** The trip and the alternatives are consecutive runs at the head of the
      candidates, the alternatives at most twenty; with a day count of zero
      or more, the trip is the first five places per day, as far as they
      reach. */
  lemma SelectionSplitsCandidates(candidates: seq<Place>, days: int)
    ensures var selected := Selected(candidates, days);
      var alternatives := Alternatives(candidates, days);
      && selected + alternatives == candidates[..|selected| + |alternatives|]
      && |alternatives| <= 20
      && (0 <= days ==> selected == candidates[..Min(days * 5, |candidates|)])
  {
    var n := |candidates|;
    var m := days * 5;
    var cut := SliceBound(m, n);
    var end := SliceBound(m + 20, n);
    assert Selected(candidates, days) == candidates[..cut];
    if cut < end {
      assert Alternatives(candidates, days) == candidates[cut..end];
      assert candidates[..cut] + candidates[cut..end] == candidates[..end];
    } else {
      assert Alternatives(candidates, days) == [];
      assert candidates[..cut] + [] == candidates[..cut];
    }
  }

  /** A selected place as the debug block lists it. */
  datatype SelectedBrief = SelectedBrief(name: string, kind: string, score: Option<real>, lat: real, lon: real,
                                         priceLevel: Option<int>)

  /** An alternative as the debug block lists it. */
  datatype AlternativeBrief = AlternativeBrief(name: string, kind: string, score: Option<real>, lat: real, lon: real)

  function SelectedBriefs(ps: seq<Place>): (r: seq<SelectedBrief>)
    ensures |r| == |ps|
    ensures forall i :: 0 <= i < |ps| ==>
      r[i] == SelectedBrief(ps[i].name, ps[i].kind, ps[i].score, ps[i].lat, ps[i].lon, ps[i].priceLevel)
  {
    if ps == [] then []
    else
      var p := ps[|ps| - 1];
      SelectedBriefs(ps[..|ps| - 1]) + [SelectedBrief(p.name, p.kind, p.score, p.lat, p.lon, p.priceLevel)]
  }

  function AlternativeBriefs(ps: seq<Place>): (r: seq<AlternativeBrief>)
    ensures |r| == |ps|
    ensures forall i :: 0 <= i < |ps| ==> r[i] == AlternativeBrief(ps[i].name, ps[i].kind, ps[i].score, ps[i].lat, ps[i].lon)
  {
    if ps == [] then []
    else
      var p := ps[|ps| - 1];
      AlternativeBriefs(ps[..|ps| - 1]) + [AlternativeBrief(p.name, p.kind, p.score, p.lat, p.lon)]
  }

  datatype DebugInfo = DebugInfo(totalSearchedPlaces: nat, selectedPlacesCount: nat, alternativePlacesCount: nat,
                                 selectedPlaces: seq<SelectedBrief>, alternativePlaces: seq<AlternativeBrief>,
                                 clustering: Option<ClusteringDebug>)

  /** The tool's answer: the error for no candidates, or the plan. */
  datatype ToolResponse =
    | NoPlaces
    | Generated(destination: string, durationDays: int, totalPlaces: nat, itinerary: seq<DayPlan>,
                debugInfo: Option<DebugInfo>)

  /** The answer built from the candidates and the planned itinerary. With
      debug output, a clustering report on day 1 is taken out of the day and
      put into the debug block; without it, day 1 keeps the report. */
  function Shaped(destination: string, days: int, candidates: seq<Place>, itinerary: seq<DayPlan>, includeDebug: bool)
    : (r: ToolResponse)
    ensures r.Generated? && r.totalPlaces == |Selected(candidates, days)|
    ensures |r.itinerary| == |itinerary|
    ensures r.debugInfo.Some? <==> includeDebug
    ensures includeDebug ==>
      && r.debugInfo.value.totalSearchedPlaces == |candidates|
      && r.debugInfo.value.selectedPlacesCount == r.totalPlaces == |r.debugInfo.value.selectedPlaces|
      && r.debugInfo.value.alternativePlacesCount == |Alternatives(candidates, days)|
           == |r.debugInfo.value.alternativePlaces| <= 20
  {
    var selected := Selected(candidates, days);
    var alternatives := Alternatives(candidates, days);
    var moved := includeDebug && |itinerary| > 0 && itinerary[0].clustering.Some?;
    var clustering := if moved then itinerary[0].clustering else None;
    var final := if moved then itinerary[0 := itinerary[0].(clustering := None)] else itinerary;
    Generated(destination, days, |selected|, final,
              if includeDebug
              then Some(DebugInfo(|candidates|, |selected|, |alternatives|, SelectedBriefs(selected),
                                  AlternativeBriefs(alternatives), clustering))
              else None)
  }

  /** For a plan whose clustering report sits on day 1 only, the debug
      answer carries the report in its debug block and none in any day; the
      plain answer leaves the plan as it is. Every other day is untouched. */
  lemma ShapedMovesReport(destination: string, days: int, candidates: seq<Place>, planned: seq<DayPlan>,
                          includeDebug: bool)
    requires |planned| == days >= 1 && planned[0].clustering.Some?
    requires forall d :: 1 <= d < days ==> planned[d].clustering.None?
    ensures var r := Shaped(destination, days, candidates, planned, includeDebug);
      && |r.itinerary| == days
      && (forall d :: 1 <= d < days ==> r.itinerary[d] == planned[d])
      && (includeDebug ==> (r.debugInfo.value.clustering == planned[0].clustering
                            && r.debugInfo.value.clustering.Some?
                            && (forall d :: 0 <= d < days ==> r.itinerary[d].clustering.None?)))
      && (!includeDebug ==> r.itinerary == planned)
  {
  }

  /** On a planned trip of one day or more the report is there to move: the
      debug answer has it in the debug block only, the plain one on day 1. */
  lemma ReportMovedOut(clustered: Option<seq<seq<Place>>>, c: Cache, cfg: Config, provider: Provider,
                       destination: string, days: int, candidates: seq<Place>, includeDebug: bool)
    requires WellFormed(c, cfg.maxSize) && 1 <= days
    ensures var planned := ItinerarySpec(clustered, c, cfg, provider, Selected(candidates, days), days,
                                         Alternatives(candidates, days)).itinerary;
      var r := Shaped(destination, days, candidates, planned, includeDebug);
      && |r.itinerary| == days
      && (includeDebug ==> (r.debugInfo.value.clustering.Some?
                            && (forall d :: 0 <= d < days ==> r.itinerary[d].clustering.None?)))
      && (!includeDebug ==> (r.itinerary == planned && planned[0].clustering.Some?))
  {
    var planned := ItinerarySpec(clustered, c, cfg, provider, Selected(candidates, days), days,
                                 Alternatives(candidates, days)).itinerary;
    ItineraryDays(clustered, c, cfg, provider, Selected(candidates, days), days, Alternatives(candidates, days));
    ShapedMovesReport(destination, days, candidates, planned, includeDebug);
  }

  /** The shaping of the tool's answer: the day-1 report moved into the debug
      block when debug output is asked for, and the lists of selected places
      and alternatives summarised there. */
  method ShapeAnswer(destination: string, days: int, found: seq<Place>, selected: seq<Place>,
                     alternatives: seq<Place>, itinerary: seq<DayPlan>, includeDebug: bool)
    returns (response: ToolResponse)
    requires selected == Selected(found, days) && alternatives == Alternatives(found, days)
    ensures response == Shaped(destination, days, found, itinerary, includeDebug)
  {
    var final := itinerary;
    var clustering := None;
    if includeDebug && |final| > 0 && final[0].clustering.Some? {
      clustering := final[0].clustering;
      final := final[0 := final[0].(clustering := None)];
    }
    var debugInfo := None;
    if includeDebug {
      debugInfo := Some(DebugInfo(|found|, |selected|, |alternatives|, SelectedBriefs(selected),
                                  AlternativeBriefs(alternatives), clustering));
    }
    response := Generated(destination, days, |selected|, final, debugInfo);
  }

  /** The tool module's state: its search service and itinerary service,
      kept for the life of the process. */
  class TravelTools {
    const searchService: Search.SearchService
    const itineraryService: ItineraryService

    ghost predicate Valid()
      reads this, itineraryService, itineraryService.optimizer
    {
      itineraryService.Valid()
    }

    constructor(useAzureMaps: bool, haversine: Haversine)
      ensures Valid() && fresh(searchService) && fresh(itineraryService) && fresh(itineraryService.optimizer)
      ensures searchService.cache == map[] && itineraryService.clustered.None?
      ensures itineraryService.optimizer.State() == Cache([], map[])
    {
      searchService := new Search.SearchService();
      itineraryService := new ItineraryService(useAzureMaps, haversine);
    }

    /** `_generate_travel_itinerary_async(destination, travel_styles,
        duration_days, requirements, budget_level, include_debug)` at time
        `now`, with `fetched` the places the database holds for the
        destination. */
    method GenerateTravelItinerary(destination: string, styles: seq<string>, days: int, reqs: seq<string>,
                                   level: int, includeDebug: bool, now: real, fetched: seq<Place>, provider: Provider)
      returns (response: ToolResponse, annotations: Annotations, ghost loaded: seq<Place>, ghost candidates: seq<Place>)
      requires Valid()
      modifies searchService, itineraryService, itineraryService.optimizer
      ensures Valid()
      ensures destination in old(searchService.cache) && !Search.Expired(old(searchService.cache)[destination], now) ==>
        loaded == old(searchService.cache)[destination].places && searchService.cache == old(searchService.cache)
      ensures !(destination in old(searchService.cache) && !Search.Expired(old(searchService.cache)[destination], now)) ==>
        loaded == fetched && searchService.cache == Search.AfterMiss(old(searchService.cache), destination, fetched, now)
      ensures candidates == Search.SearchResult(loaded, destination, styles, reqs, level)
      ensures candidates == [] ==> response == NoPlaces
      ensures candidates == [] ==> annotations == map[]
      ensures candidates == [] ==> itineraryService.clustered == old(itineraryService.clustered)
      ensures candidates == [] ==> itineraryService.optimizer.State() == old(itineraryService.optimizer.State())
      ensures candidates != [] ==>
        var outcome := ItinerarySpec(old(itineraryService.clustered), old(itineraryService.optimizer.State()),
                                     itineraryService.optimizer.Settings(), provider, Selected(candidates, days), days,
                                     Alternatives(candidates, days));
        && response == Shaped(destination, days, candidates, outcome.itinerary, includeDebug)
        && annotations == outcome.annotations
        && itineraryService.clustered == outcome.clustered
        && itineraryService.optimizer.State() == outcome.cache
    {
      var found;
      found, loaded := searchService.SearchPlacesWithPriority(destination, styles, reqs, level, now, fetched);
      candidates := found;
      if found == [] {
        return NoPlaces, map[], loaded, candidates;
      }
      response, annotations := PlanCandidates(destination, days, found, includeDebug, provider, old(itineraryService.clustered),
                                             old(itineraryService.optimizer.State()), itineraryService.optimizer.Settings());
    }

    /** The second half of the tool, for a non-empty candidate list: the
        first five per day planned as the trip with the next twenty as
        alternatives, and the answer shaped. */
    method PlanCandidates(destination: string, days: int, found: seq<Place>, includeDebug: bool, provider: Provider,
                          ghost c0: Option<seq<seq<Place>>>, ghost s0: Cache, ghost cfg: Config)
      returns (response: ToolResponse, annotations: Annotations)
      requires Valid()
      requires c0 == itineraryService.clustered && s0 == itineraryService.optimizer.State()
      requires cfg == itineraryService.optimizer.Settings()
      modifies itineraryService, itineraryService.optimizer
      ensures Valid()
      ensures var outcome := ItinerarySpec(c0, s0, cfg, provider, Selected(found, days), days, Alternatives(found, days));
        && response == Shaped(destination, days, found, outcome.itinerary, includeDebug)
        && annotations == outcome.annotations
        && itineraryService.clustered == outcome.clustered
        && itineraryService.optimizer.State() == outcome.cache
    {
      var maxPlaces := days * 5;
      var selected := PySlice(found, None, Some(maxPlaces));
      var alternatives := PySlice(found, Some(maxPlaces), Some(maxPlaces + 20));
      assert selected == Selected(found, days) && alternatives == Alternatives(found, days);
      ghost var outcome := ItinerarySpec(c0, s0, cfg, provider, selected, days, alternatives);
      var answer;
      answer, annotations := itineraryService.CreateItineraryAsync(selected, days, alternatives, includeDebug, provider);
      assert answer.itinerary == outcome.itinerary;
      response := ShapeAnswer(destination, days, found, selected, alternatives, answer.itinerary, includeDebug);
    }
  }
}
