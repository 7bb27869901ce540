# Travel itinerary engine, modelled in Dafny

This project models the planning core of a travel back end. A user's trip request goes through these steps:

- The search service scores and filters candidate places for a destination. It keeps the loaded places in a cache that expires after an hour.
- The tool layer slices the ranked candidates into the trip's places (five a day) and up to twenty alternatives.
- The itinerary service does the planning:
  - it buckets the places by kind and picks the best-scored hotel as the main hotel;
  - it interleaves activities, restaurants and cafes in a fixed rhythm;
  - it splits them into one group per day with ten rounds of k-means;
  - it orders each day greedily by nearest neighbour, starting from the hotel;
  - it times each stop from 09:00 with 90-minute stays;
  - it annotates the stops with travel options and same-kind alternatives.
- All distances come from a route optimizer. It is a straight-line estimate or an external routing provider, behind a first-in-first-out cache of at most 5000 entries.
- The router module adds three pieces:
  - it turns a free-text budget ("50만원") into a price level;
  - it replaces one place in a plan and replans;
  - it picks the requested day.
- The conversation service decides what the chat agent does next: ask for missing details, call the tools, or summarise the plan. It also derives the completion flags returned to the client.

The project has these modules:

| file | module | models |
|---|---|---|
| common.dfy | `Common` | places, Python's `round`/`int`/slicing/indexing, first minimum and maximum |
| clock.dfy | `ClockText` | `HH:MM` formatting and reading the hour back |
| kmeans.dfy | `KMeans` | the reference definition of `cluster_places` |
| route_optimizer.dfy | `Routing` | the distance oracle, its cache and the greedy route; class `RouteOptimizer` |
| itinerary.dfy | `Itinerary` | `_create_itinerary_impl` and `create_itinerary_async`; class `ItineraryService` |
| search.dfy | `Search` | scoring, ranking and the TTL cache; class `SearchService` |
| router.dfy | `Router` | the budget parser, place replacement and day selection |
| tools.dfy | `Tools` | the sample table and its tools, slicing and answer shaping; class `TravelTools` |
| travel_service.dfy | `Conversation` | sanitising, extraction filtering, missing slots, branch choice and result flags |

Some inputs are not computed by the model. They are parameters, fixed per call:
- The great-circle distance is an uninterpreted function `Haversine`. Nothing is assumed about it.
- The routing provider is a function from a request to `Routed(metres, seconds) | Failed`.
- The clock (`now`) is a parameter.
- The places a database query returns are a parameter.
- The language model's extraction and the agent graph's resulting messages are parameters.
- `json.loads` is a parameter.

Each stateful class is proved against pure reference functions. The methods' postconditions equate the results and the new state with those functions applied to the old state. The lemmas then prove what the source promises about the functions.

Where the documentation and the code disagree, the model follows the code. Two cases matter:

- The budget docstring (routers/travel.py:37-41) gives example levels that the code does not produce. For example, 5만원 for one day is 50000 won a day, and the code gives level 3 for that, not level 1. `Router.DocumentedExamples` states the levels the code gives.
- The itinerary computes a walking-or-public mode for each leg but always asks for `walk` (services/itinerary_service.py:185-191). The model asks for `walk`, as the code does.

## Model

| member | source | states |
|---|---|---|
| Common.Round | services/route_optimizer.py:163 | Python's `round` lands within one half of its argument |
| Common.RoundMonotone | services/route_optimizer.py:163 | rounding preserves order, so longer legs never get fewer minutes |
| Common.Trunc | services/route_optimizer.py:306 | `int()` truncates toward zero: below the value for positives, above for negatives, by less than one |
| Common.FirstMinFromCorrect | services/route_optimizer.py:259-264 | the strict `<` scan returns an index holding a minimal value, earlier than any other minimum |
| Common.FirstMinIsFirstMinimal | services/route_optimizer.py:259-264 | the chosen index holds a smallest value, and every earlier index holds a strictly larger one |
| Common.FirstMaxIsFirstMaximal | services/route_optimizer.py:324 | `max` keeps the first largest element: every earlier element is strictly smaller |
| Common.BestScoredIsFirstHighest | services/route_optimizer.py:324 | `max(key=score)` picks a place of highest score, with absent scores read as 0, and the first such place |
| Common.RemoveFirst | services/route_optimizer.py:346 | `list.remove(x)`, here and at line 325, on a list holding `x` removes its first occurrence, keeping the places before it and after it in order; an absent `x`, where Python raises `ValueError`, never reaches it (see "## Left out") |
| Common.PyIndex | routers/travel.py:306-307 | `s[i]` is defined exactly for -len <= i < len; a negative index counts from the end |
| Common.SliceBound | tools/travel_tools.py:302-306 | slice bounds are clamped into the list, and negative bounds count from the end |
| Common.PySliceNatural | tools/travel_tools.py:302-306 | for 0 <= a <= b, `s[a:b]` is the elements from a up to b, as far as the list reaches |
| ClockText.DigitsAreDigits | services/itinerary_service.py:262 | the printed digits of a number are all decimal digits, and there is at least one |
| ClockText.Pad2Shape | services/itinerary_service.py:262 | a `:02d` field is at least two characters wide and holds no colon |
| ClockText.ParseIntOfPad2 | services/itinerary_service.py:262-268 | `int()` of a `:02d` field gives back the number printed, signs included |
| ClockText.BeforeColonOf | services/itinerary_service.py:268 | `split(':')[0]` of `a + ":" + b` is `a` when `a` has no colon |
| ClockText.BeforeColon | services/itinerary_service.py:268 | `split(':')[0]` is a prefix of the text without a colon, followed by a colon or by the end of the text |
| ClockText.HourOf | services/itinerary_service.py:268 | the hour is `int()` of the text up to the first colon, or of the whole text when it has no colon |
| ClockText.FormatClock | services/itinerary_service.py:262-268 | the hour read back from a printed start time is `minutes // 60`, with no 24-hour wrap |
| ClockText.FormatClockShape | services/itinerary_service.py:262-264 | within 100 hours the clock prints as five characters `HH:MM` |
| KMeans.NearestIsFirstNearest | services/route_optimizer.py:256-266 | a place joins a centroid at least as near as every other, and the lowest-indexed one among equally near centroids |
| KMeans.Nearest | services/route_optimizer.py:253-266 | with centroids, the chosen index is a centroid's; without any it stays at 0, the loop's start value |
| KMeans.Groups | services/route_optimizer.py:250-266 | one assignment round builds exactly k lists, list c holding the places whose nearest centroid is c |
| KMeans.RelocatedUpTo | services/route_optimizer.py:269-278 | each new centroid is the relocation of its own cluster from its own previous centroid |
| KMeans.UpdateFromGroups | services/route_optimizer.py:269-280 | relocating each list of the assignment round is the centroid update |
| KMeans.Update | services/route_optimizer.py:268-280 | one new centroid per old one, each the relocation of that centroid's own cluster |
| KMeans.Initial | services/route_optimizer.py:242-245 | the initial centroids are the coordinates of the first k places |
| KMeans.CentroidsAfter | services/route_optimizer.py:248-280 | every round keeps exactly k centroids |
| KMeans.Singletons | services/route_optimizer.py:238-239 | with no more places than k, each place forms its own cluster, in input order |
| KMeans.Clusters | services/route_optimizer.py:230-283 | no places or k <= 0 give no clusters; len(places) <= k gives one per place; otherwise exactly k clusters |
| KMeans.ConcatBump | services/route_optimizer.py:266 | appending a place to one list adds exactly that place to the whole |
| KMeans.GroupsSnoc | services/route_optimizer.py:253-266 | one more place lands in exactly one list, its nearest centroid's |
| KMeans.GroupsPartition | services/route_optimizer.py:250-266 | an assignment round places every place exactly once across the k lists |
| KMeans.ConcatSingletons | services/route_optimizer.py:238-239 | the singleton clusters together are the input |
| KMeans.ClustersPartition | services/route_optimizer.py:230-283 | the clusters together hold each place exactly as often as the input does |
| KMeans.MembersInOrder | services/route_optimizer.py:253-266 | each cluster lists its places in input order |
| KMeans.ClustersByNearest | services/route_optimizer.py:248-283 | a place is in cluster c exactly when its nearest final centroid is c, and clusters keep input order |
| KMeans.MembersHas | services/route_optimizer.py:253-266 | a place is a member of group c exactly when it is an input place whose nearest centroid is c |
| KMeans.Relocate | services/route_optimizer.py:271-278 | an empty cluster keeps its centroid; any other moves to the point whose coordinates times the member count are the members' coordinate sums, their mean |
| Routing.Speed | services/route_optimizer.py:153-160 | the speed is 4 km/h exactly for walk, 30 exactly for car, and 20 for every other mode |
| Routing.Scaled | services/route_optimizer.py:163 | minutes are the distance divided by the mode's speed, times 60 |
| Routing.StraightTimeBounds | services/route_optimizer.py:163 | a straight-line leg takes at least the 10 slack minutes and never fewer minutes than a shorter leg |
| Routing.StraightTime | services/route_optimizer.py:151-163 | the minutes lie within half a minute of distance over speed times 60, plus 10; a non-negative distance takes at least 10 |
| Routing.StraightEstimate | services/route_optimizer.py:140-169 | the straight-line estimate has the distance rounded to two decimals, the rounded time plus 10, and method haversine |
| Routing.TravelTimeAgainstStraightTime | services/route_optimizer.py:294-306 | the truncating `calculate_travel_time` gives the rounding rule's minutes or one less, and at least 10 |
| Routing.TravelTime | services/route_optimizer.py:294-306 | the minutes beyond the 10 slack are distance over speed times 60 truncated toward zero, for either sign |
| Routing.ProviderMode | services/route_optimizer.py:184-190 | the provider is asked for publicTransit exactly for `public`, pedestrian exactly for `walk`, and car for every other mode |
| Routing.Fresh | services/route_optimizer.py:76-95 | the provider's route is used exactly when the provider is enabled, the straight line is at least 1.5 km, the mode is not walk and the provider answers; otherwise the straight-line estimate is used |
| Routing.FreshFits | services/route_optimizer.py:76-96 | a fresh estimate fits its own cache key |
| Routing.Printed4 | services/route_optimizer.py:70 | `.4f` prints a minus sign exactly for a negative value, also one that rounds to zero, and digits within half a unit of the fourth decimal |
| Routing.Printed4Agree | services/route_optimizer.py:70 | two coordinates print alike exactly when they round alike at four decimals and lie on the same side of zero |
| Routing.NegativeZeroKeyDiffers | services/route_optimizer.py:70 | -0.00001 prints as "-0.0000" and 0.00001 as "0.0000", so their queries get different cache keys |
| Routing.CacheKey | services/route_optimizer.py:70 | the key holds the mode and each coordinate as `.4f` prints it: its sign and its rounded value |
| Routing.Evict | services/route_optimizer.py:287-290 | a full cache drops exactly its oldest key; one with room is untouched; there is room afterwards |
| Routing.Store | services/route_optimizer.py:292 | storing maps the key to the value; a new key goes last, and an existing key keeps its place |
| Routing.Insert | services/route_optimizer.py:285-292 | adding to the cache keeps it within `cache_max_size`, with its keys distinct and in insertion order |
| Routing.InsertStores | services/route_optimizer.py:292 | after adding, the key holds the value, and a new key is the newest |
| Routing.InsertKeeps | services/route_optimizer.py:285-292 | every other entry survives unless it was the oldest key of a full cache |
| Routing.InsertAddsOnlyKey | services/route_optimizer.py:285-292 | adding introduces no key but its own |
| Routing.InsertEffect | services/route_optimizer.py:285-292 | adding stores the value, keeps the other entries except an evicted oldest, adds no other key, and puts a new key last |
| Routing.InsertValid | services/route_optimizer.py:285-292 | storing a fitting estimate keeps every cached entry fitting its key |
| Routing.InsertFullEvictsOldest | services/route_optimizer.py:287-292 | a new key in a full cache evicts exactly the oldest key, and the size stays at the cap |
| Routing.InsertAll | services/route_optimizer.py:285-292 | any sequence of insertions keeps the cache well-formed |
| Routing.InsertAllKeepsNewest | services/route_optimizer.py:285-292 | first in, first out: after distinct insertions the cache holds the newest `cache_max_size` keys, oldest first |
| Routing.Query | services/route_optimizer.py:42-97 | a missing coordinate gives 0 km, 0 minutes, method none and an untouched cache; a key already in the cache is answered with its stored entry marked `cache`, leaving the cache unchanged; any other key is answered with a fresh estimate, which is stored by `_add_to_cache`; every query keeps the cache well-formed and consistent |
| Routing.QueryTwice | services/route_optimizer.py:69-74 | asking again is answered from the cache with the first answer's distance and minutes, and changes nothing |
| Routing.WalkingLegIsStraight | services/route_optimizer.py:86-88 | a walking leg never reaches the provider, and its minutes are the straight-line minutes |
| Routing.Scan | services/route_optimizer.py:333-340 | the inner loop asks one distance per unvisited place, keeping the cache consistent |
| Routing.ScanStep | services/route_optimizer.py:333-340 | the scan from position j is the query for that place followed by the scan of the rest |
| Routing.Walk | services/route_optimizer.py:329-349 | the greedy walk keeps the cache well-formed and consistent |
| Routing.Route | services/route_optimizer.py:308-349 | the route computation keeps the cache well-formed and consistent |
| Routing.BestScoredIndex | services/route_optimizer.py:324 | the best-scored place's index lies within the list |
| Routing.WalkStep | services/route_optimizer.py:329-347 | each step moves to the first nearest unvisited place, removes it, and walks on from it |
| Routing.WalkVisitsAll | services/route_optimizer.py:329-349 | the walk visits every unvisited place exactly once |
| Routing.RouteVisitsAll | services/route_optimizer.py:308-349 | no places give an empty route even with a start; with a start the route is the start then a permutation of the places; without one it opens at the first best-scored place and is a permutation |
| Routing.RouteFromStart | services/route_optimizer.py:308-349 | with a start and some places, the route has one more stop than there are places, opens at the start and then lists each place exactly once |
| Routing.RouteFromBest | services/route_optimizer.py:308-349 | without a start, the route opens at the first best-scored place and is a permutation of the places |
| Routing.WalkStepIsNearest | services/route_optimizer.py:329-347 | each next stop is at the smallest reported distance, and is the first such unvisited place |
| Routing.RouteOptimizer.constructor | services/route_optimizer.py:9-15 | the optimizer starts with an empty cache capped at 5000 entries |
| Routing.RouteOptimizer.AddToCache | services/route_optimizer.py:285-292 | the cache becomes `Insert` of the old cache |
| Routing.RouteOptimizer.CalculateDistance | services/route_optimizer.py:42-97 | the answer and the new cache are those of `Query` on the old cache |
| Routing.RouteOptimizer.ClusterPlaces | services/route_optimizer.py:230-283 | the clusters are `KMeans.Clusters` |
| Routing.RouteOptimizer.Relocations | services/route_optimizer.py:241-283 | the ten rounds yield the groups of the last assignment |
| Routing.RouteOptimizer.Assign | services/route_optimizer.py:250-266 | the assignment loop builds `KMeans.Groups` |
| Routing.RouteOptimizer.Relocated | services/route_optimizer.py:268-280 | the update loop yields the relocation of every cluster |
| Routing.RouteOptimizer.MemberSums | services/route_optimizer.py:276-277 | the loop sums the members' latitudes and longitudes |
| Routing.RouteOptimizer.OptimizeRoute | services/route_optimizer.py:308-349 | the route and the new cache are those of `Route` on the old cache |
| Routing.RouteOptimizer.NearestUnvisited | services/route_optimizer.py:330-343 | the chosen place is the first nearest of the scanned distances, and the cache is the scan's |
| Routing.RouteOptimizer.ScanOne | services/route_optimizer.py:333-340 | one query of the inner loop yields the scan's j-th distance and advances the scan |
| Itinerary.OfKinds | services/itinerary_service.py:96-99 | a bucket is never longer than the places |
| Itinerary.OfKindsMembers | services/itinerary_service.py:96-99 | a bucket holds exactly the places of its kinds |
| Itinerary.OfKindsInOrder | services/itinerary_service.py:96-99 | a bucket keeps the input order |
| Itinerary.OfKindsAppend | services/itinerary_service.py:96-99 | bucketing distributes over concatenation |
| Itinerary.MainHotelIsBest | services/itinerary_service.py:104-106 | a main hotel exists exactly when some place is a hotel; it is a hotel of highest score and the first such |
| Itinerary.MainHotel | services/itinerary_service.py:99-106 | there is a main hotel exactly when the hotel bucket is non-empty, and it is taken from that bucket |
| Itinerary.Pop | services/itinerary_service.py:122-126 | a pop shortens a non-empty list, so the mixing loop terminates |
| Itinerary.MixRound | services/itinerary_service.py:121-126 | each pass strictly shrinks the three lists while any holds places |
| Itinerary.MixFrom | services/itinerary_service.py:121-126 | the loop keeps the places already output and appends one place for each place left in the three lists |
| Itinerary.MixRoundPattern | services/itinerary_service.py:122-126 | a pass appends the first activity, the first restaurant, the second activity, the first cafe and the second restaurant, each only if its list has it, and removes exactly those from the lists |
| Itinerary.MixFromFullRound | services/itinerary_service.py:121-126 | while two activities, two restaurants and a cafe remain, the loop appends A, R, A, C, R and carries on with the rest |
| Itinerary.MixRoundMultiset | services/itinerary_service.py:121-126 | a pass moves places to the output without losing or inventing any |
| Itinerary.MixFromMultiset | services/itinerary_service.py:121-126 | the loop outputs every remaining place exactly once |
| Itinerary.MixIsTheThreeBuckets | services/itinerary_service.py:119-126 | the mix is exactly the activities, restaurants and cafes, each as often as in the input |
| Itinerary.MixMembers | services/itinerary_service.py:96-126 | hotels and places of any other kind are never mixed in |
| Itinerary.PopFiltered | services/itinerary_service.py:122-126 | seen through one bucket's kinds, a pop moves the list's head to the end of the output |
| Itinerary.MixRoundFiltered | services/itinerary_service.py:121-126 | within one pass, the places of each bucket reach the output in their order |
| Itinerary.MixFromKeepsOrder | services/itinerary_service.py:121-126 | the loop appends each bucket's places in their order |
| Itinerary.MixKeepsEachBucketsOrder | services/itinerary_service.py:119-126 | read back by kind, the mix lists each bucket as the input did |
| Itinerary.AlternativesOf | services/itinerary_service.py:281-284 | at most five alternatives are offered, each a valid position |
| Itinerary.SameKindUpToSpec | services/itinerary_service.py:281-284 | the scan collects exactly the same-kind positions, increasing |
| Itinerary.AlternativesOfKind | services/itinerary_service.py:281-284 | every offered alternative has the stop's kind, and the positions increase |
| Itinerary.AlternativesAreFirst | services/itinerary_service.py:281-284 | a same-kind place left out means five alternatives were already offered, all before it |
| Itinerary.AlternativesAreFirstOfKind | services/itinerary_service.py:281-284 | the offered alternatives have the stop's kind, in order; a same-kind place not offered comes after five offered ones |
| Itinerary.LegsAreWalks | services/itinerary_service.py:176-193 | every leg estimate is a walking estimate, never the provider's |
| Itinerary.LegOptions | services/itinerary_service.py:243-255 | asking for both options keeps the cache consistent |
| Itinerary.AnnotateOne | services/itinerary_service.py:287-313 | an alternative's record is none at the first stop, without asking; otherwise it is a record in walk mode exactly when the straight line from the previous stop is under 1.5 km, public otherwise |
| Itinerary.AnnotateUpTo | services/itinerary_service.py:287-313 | one record per offered alternative, asked in order, keeping the cache consistent |
| Itinerary.AnnotateStep | services/itinerary_service.py:287-313 | each offered alternative's record is asked after the earlier ones, of the cache they left |
| Itinerary.AnnotateAtFirstStop | services/itinerary_service.py:311-313 | at the day's first stop no distance is asked |
| Itinerary.WriteAllWritten | services/itinerary_service.py:304-313 | writing the records changes exactly the written alternatives |
| Itinerary.WriteAllValues | services/itinerary_service.py:304-313 | each written alternative holds its last written record |
| Itinerary.OptionsInto | services/itinerary_service.py:211-258 | options exist exactly from the second stop on, one walk and one public |
| Itinerary.AskAt | services/itinerary_service.py:240-313 | the questions one stop asks keep the cache well-formed and consistent |
| Itinerary.AsksUpTo | services/itinerary_service.py:210-313 | the loop asks once per stop, and each stop's answers fit it |
| Itinerary.AskAtFits | services/itinerary_service.py:214-313 | a stop's answers have options exactly from the second stop and a record per offered alternative |
| Itinerary.RenderedAt | services/itinerary_service.py:315-326 | entry i of the printed schedule is draft i printed |
| Itinerary.Render | services/itinerary_service.py:260-326 | an entry has order i+1, the place, 90 minutes, start printed from the draft's minute and end 90 minutes later, the slot of the hour read back from the printed start, the walk option as travel info, and the draft's options and alternatives |
| Itinerary.RenderSays | services/itinerary_service.py:210-326 | a correct draft prints as the correct entry |
| Itinerary.SlotOf | services/itinerary_service.py:268-278 | morning exactly before 12, lunch exactly from 12 to before 14, afternoon from 14 to before 17, dinner from 17 to before 19, night from 19 on |
| Itinerary.StartOf | services/itinerary_service.py:170 | the first stop starts at 09:00 |
| Itinerary.StartAfterPrevious | services/itinerary_service.py:219-263 | every later stop starts when the one before it ends, 90 minutes after its start, plus the leg between them |
| Itinerary.Step | services/itinerary_service.py:210-326 | one pass adds exactly one draft, for stop i, after the earlier ones; the clock moves to its end; the travel time added is the wait between the previous end and its start |
| Itinerary.Fold | services/itinerary_service.py:210-326 | n passes add exactly n drafts after the ones already there |
| Itinerary.StepShape | services/itinerary_service.py:210-326 | one loop pass extends a correct tally by the correct entry |
| Itinerary.FoldShape | services/itinerary_service.py:170-326 | the schedule loop is correct after every stop |
| Itinerary.ScheduleShape | services/itinerary_service.py:170-330 | one entry per stop, each correct; the total time and distance are the sums of the leg estimates |
| Itinerary.Stops | services/itinerary_service.py:162-167 | the main hotel is appended on every day but the last |
| Itinerary.DailyPlaces | services/itinerary_service.py:156 | day d takes cluster d-1 while there is one, and no places after the clusters run out |
| Itinerary.Places | services/itinerary_service.py:315-326 | the places of the schedule, entry by entry |
| Itinerary.PlanDaySpec | services/itinerary_service.py:108-331 | a day plan carries its day number and no clustering report, and keeps the cache consistent |
| Itinerary.FoldPlaces | services/itinerary_service.py:210-326 | the printed schedule lists the stops in order |
| Itinerary.DayVisitsStops | services/itinerary_service.py:156-326 | a day's schedule visits exactly its optimized route, plus the closing hotel |
| Itinerary.StopsCover | services/itinerary_service.py:156-167 | apart from the hotel, a day visits each of its places exactly as often as its group holds it; the hotel opens a non-empty day and closes every day but the last |
| Itinerary.DaySchedule | services/itinerary_service.py:156-330 | each entry is correct, the summary is round(total km, 2) and the total minutes, and every leg is a walking estimate |
| Itinerary.DaysUpTo | services/itinerary_service.py:108-331 | n days give n plans numbered 1..n, keeping the cache consistent |
| Itinerary.ItinerarySpec | services/itinerary_service.py:83-335 | the whole computation keeps the cache well-formed and consistent |
| Itinerary.ItineraryDays | services/itinerary_service.py:108-335 | days < 1 gives nothing and changes nothing; otherwise exactly `days` plans numbered 1..n (even with no places), the clustering report only on day 1, and the clusters of the mix stored |
| Itinerary.ItineraryFromDays | services/itinerary_service.py:108-335 | the result is the day plans with the report attached to day 1 |
| Itinerary.ReportOnFirstDay | services/itinerary_service.py:333-335 | attaching the report touches day 1 only |
| Itinerary.DaysCover | services/itinerary_service.py:108-331 | apart from the hotel, days 1..n schedule each place exactly as often as groups 1..n hold it |
| Itinerary.ItineraryCovers | services/itinerary_service.py:83-335 | apart from the main hotel, the itinerary schedules every activity, restaurant and cafe exactly once and nothing else |
| Itinerary.GroupsCover | services/itinerary_service.py:118-156 | the day groups together are the three buckets |
| Itinerary.MixPlaces | services/itinerary_service.py:119-126 | the interleaving loop computes `MixFrom` |
| Itinerary.ItineraryService.constructor | services/itinerary_service.py:7-8 | a fresh optimizer with an empty cache, and no clusters yet |
| Itinerary.ItineraryService.WalkLegs | services/itinerary_service.py:174-207 | the walking estimates for each leg, in order, and the cache they leave |
| Itinerary.ItineraryService.TravelChoices | services/itinerary_service.py:240-258 | both options for one leg, walk first |
| Itinerary.ItineraryService.TravelFromPrevious | services/itinerary_service.py:287-313 | one alternative's travel record |
| Itinerary.ItineraryService.AnnotateAlternatives | services/itinerary_service.py:287-313 | the records are written into the offered alternatives |
| Itinerary.ItineraryService.BuildSchedule | services/itinerary_service.py:170-330 | the schedule, totals and records are the schedule fold over the loop's answers |
| Itinerary.ItineraryService.ScheduleEntry | services/itinerary_service.py:260-326 | a printed entry is the rendered draft, and the clock moves on by the 90-minute stay |
| Itinerary.ItineraryService.VisitStop | services/itinerary_service.py:210-326 | one loop pass is one step of the fold and prints the draft |
| Itinerary.ItineraryService.CreateItineraryAsync | services/itinerary_service.py:10-37 | the itinerary is `ItinerarySpec`'s; the debug wrapper appears exactly when asked, with the place count, the clusters and the places |
| Itinerary.ItineraryService.CreateItineraryImpl | services/itinerary_service.py:83-335 | the itinerary, records, stored clusters and cache are `ItinerarySpec`'s |
| Itinerary.ItineraryService.PlanDays | services/itinerary_service.py:108-331 | the day loop reaches all days, each from the state the day before left |
| Itinerary.ItineraryService.NextDay | services/itinerary_service.py:108-331 | one pass of the day loop plans the next day |
| Itinerary.ItineraryService.PlanDay | services/itinerary_service.py:155-331 | one day's plan, records and cache are `PlanDaySpec`'s |
| Search.SimilarKeywords | services/search_service.py:282-295 | a style has similar keywords exactly when it is one of the seven known styles |
| Search.StyleCredit | services/search_service.py:255-264 | a style counts 1 if among the tags, else 0.5 if a similar keyword is, else 0 |
| Search.StyleMatches | services/search_service.py:252-264 | the style matches lie between 0 and the number of styles |
| Search.RequirementMatches | services/search_service.py:271-275 | the requirement matches are at most the number of requirements |
| Search.PlaceScore | services/search_service.py:232-280 | another destination scores 0; the destination scores 50 to 100; so a score of at least 50 means exactly that the destination matches |
| Search.AllStylesMatch | services/search_service.py:254-267 | styles all among the tags count fully |
| Search.AllRequirementsMatch | services/search_service.py:271-278 | requirements all among the tags count fully |
| Search.FullMatchScoresHundred | services/search_service.py:242-280 | a destination place carrying every style and requirement scores 100 |
| Search.CreditOf | services/search_service.py:259-264 | the keyword loop stops at the first match with 0.5 |
| Search.CalculatePlaceScore | services/search_service.py:232-280 | the accumulating loops compute `PlaceScore` |
| Search.Affordable | services/search_service.py:206-209 | the budget filter keeps exactly the places with price level (default 2) at most the level |
| Search.Kept | services/search_service.py:211-223 | the scoring loop keeps no more places than it sees |
| Search.KeptMembers | services/search_service.py:211-223 | a kept place is exactly a candidate at the destination, with its score written in |
| Search.Insert | services/search_service.py:227 | inserting adds exactly the one place |
| Search.SortByScore | services/search_service.py:227 | the sort is a permutation |
| Search.SortedDescending | services/search_service.py:227 | the sorted list runs from the highest score down |
| Search.InsertDescending | services/search_service.py:227 | inserting into a descending list keeps it descending |
| Search.InsertStable | services/search_service.py:227 | an inserted place comes after every place of its own score |
| Search.SortStable | services/search_service.py:227 | places of equal score keep their order |
| Search.SearchKeepsExactly | services/search_service.py:192-230 | the result is descending and holds exactly the affordable places at the destination, each with its score written in |
| Search.SearchResult | services/search_service.py:192-230 | the search returns no more places than were loaded, highest score first |
| Search.ScoreCandidates | services/search_service.py:211-223 | the scoring loop computes `Kept` |
| Search.PrioritySearch | services/search_service.py:205-230 | filter, score, keep and sort compute `SearchResult` |
| Search.SearchTerm | services/search_service.py:94-104 | 제주도 becomes 제주, and every other name is searched as given |
| Search.SearchTermIdempotent | services/search_service.py:94-104 | mapping a name twice is mapping it once |
| Search.CleanupIdempotent | services/search_service.py:35-52 | cleaning twice at the same time is cleaning once |
| Search.CleanupLaterKeepsLess | services/search_service.py:35-52 | a later cleanup keeps no more destinations than an earlier one |
| Search.Expired | services/search_service.py:25-27 | an entry stays valid until exactly one hour after it was stored |
| Search.Unexpired | services/search_service.py:35-52 | the cleaned cache keeps exactly the unexpired entries, unchanged |
| Search.AfterMiss | services/search_service.py:72-84 | after a miss the destination is cached exactly when places were fetched, with the current time; every other entry comes from the old cache, and each unexpired one stays |
| Search.SearchService.constructor | services/search_service.py:10-15 | the cache starts empty |
| Search.SearchService.IsCacheValid | services/search_service.py:17-33 | valid exactly for a present, unexpired entry; an expired entry is deleted; otherwise the cache is untouched |
| Search.SearchService.CleanupExpiredCache | services/search_service.py:35-52 | exactly the expired entries are removed |
| Search.SearchService.LoadPlaces | services/search_service.py:54-84 | a valid entry is returned with the cache unchanged; otherwise the fetched places are returned, stored when non-empty, and the cache cleaned at sizes divisible by ten |
| Search.SearchService.SearchPlacesWithPriority | services/search_service.py:192-230 | the result is `SearchResult` of the loaded places, with the cache as `LoadPlaces` leaves it |
| Router.DigitChar | routers/travel.py:53 | a digit character has the digit's value |
| Router.FromFirstDigit | routers/travel.py:53 | the text from the first digit on, with no digit before it |
| Router.LeadingDigits | routers/travel.py:53 | the longest run of digits at the front |
| Router.FromFirstDigitSkips | routers/travel.py:53-57 | the search skips a digit-free prefix and stops at the first digit |
| Router.LeadingDigitsStops | routers/travel.py:53-57 | a run of digits ends at the first non-digit |
| Router.Decimal | routers/travel.py:57 | a numeral is a non-empty run of digits |
| Router.DecimalRoundTrip | routers/travel.py:57 | `int()` of a numeral gives back the number |
| Router.FirstNumber | routers/travel.py:53-57 | there is a number exactly when the text holds a digit |
| Router.FirstNumberReadsFirstRun | routers/travel.py:53-57 | only the first run of digits counts, whatever follows |
| Router.UnitOf | routers/travel.py:59-66 | 억 means 10^8 and wins over 만 (10^4); otherwise won |
| Router.PerDay | routers/travel.py:69 | the budget divided by the days when days > 0, else the whole budget |
| Router.LevelOf | routers/travel.py:72-83 | level 1 exactly below 10000, at most 2 exactly up to 30000, 4 exactly from 100000 |
| Router.LevelMonotone | routers/travel.py:72-83 | a larger daily budget never gets a lower level |
| Router.BudgetLevel | routers/travel.py:22-86 | the level is always 1..4, and a text with no digit gives 2 |
| Router.BudgetLevelOfNumber | routers/travel.py:43-86 | a text whose first number is n gets the level of n times its unit spread over the days, or 2 when the division overflows |
| Router.NumeralUnit | routers/travel.py:59-66 | the digits never affect the unit |
| Router.MarkAfterNumeral | routers/travel.py:59-66 | a unit mark occurs in numeral plus text exactly when it occurs in the text |
| Router.PerDayMonotone | routers/travel.py:69 | more money never means less per day |
| Router.NumeralLevel | routers/travel.py:43-86 | a numeral followed by a unit text gets that unit's level |
| Router.BudgetLevelMonotone | routers/travel.py:43-86 | more money in the same unit never lowers the level, short of overflow |
| Router.HugeBudgetIsLevelTwo | routers/travel.py:69-86 | a budget too large for a double falls into level 2 |
| Router.DocumentedExamples | routers/travel.py:37-41 | the docstring's four examples give levels 3, 4, 4, 4 in the code |
| Router.DocumentedExample | routers/travel.py:43-86 | n 만원 over the days gets the level of n*10000 per day |
| Router.RequestLevel | routers/travel.py:141-143 | a named level is used as given; otherwise the computed level in 1..4 |
| Router.ReplacePlaces | routers/travel.py:288-294 | the loop computes `Replaced` |
| Router.Replaced | routers/travel.py:288-294 | same length; every place with the old name and latitude becomes the new place, the rest stay |
| Router.ReplacedNothing | routers/travel.py:288-294 | with no matching place the list is unchanged |
| Router.ReplacedRemovesOld | routers/travel.py:288-294 | unless the new place itself matches, no matching place remains |
| Router.ReplacedTwice | routers/travel.py:288-294 | replacing twice is replacing once |
| Router.SelectDay | routers/travel.py:305-307 | a day in 1..n picks plan day-1; a later day gives None; 0 and negative days count from the end; a day at or below -n raises |
| Router.SelectedDayIsThatDay | routers/travel.py:298-307 | for 1 <= d <= days the chosen plan is day d; day 0 yields the last day's plan; a later day gives None |
| Router.ReplacePlaceAndRecalculate | routers/travel.py:258-321 | the answer carries the chosen day's plan of the replanned trip and the whole itinerary, or an error where indexing raises |
| Tools.Lookup | tools/travel_tools.py:213-220 | a dictionary lookup succeeds exactly for a listed key, with that key's value |
| Tools.Keys | tools/travel_tools.py:253 | the keys, in order |
| Tools.SupportedDestinations | tools/travel_tools.py:243-253 | the destinations are 서울, 제주도 and 부산, in that order |
| Tools.TypesIn | tools/travel_tools.py:270-273 | a destination outside the table has no types |
| Tools.PlacesIn | tools/travel_tools.py:212-220 | an unknown destination or type gives no places |
| Tools.PlacesFoundExactly | tools/travel_tools.py:212-220 | without empty lists, places are found exactly for a listed destination and one of its types |
| Tools.TypesFoundExactly | tools/travel_tools.py:270-273 | without empty lists, types are found exactly for a listed destination |
| Tools.SupportedTypes | tools/travel_tools.py:256-273 | an unsupported destination has no types |
| Tools.SearchPlaces | tools/travel_tools.py:197-220 | an unknown destination or type gives no places |
| Tools.SamplePlaces | tools/travel_tools.py:15-194 | the sample table has three destinations; every destination has a type, and every type a place |
| Tools.SearchFindsSupported | tools/travel_tools.py:212-220 | a search finds places exactly for a supported destination and one of its types |
| Tools.TypesForSupported | tools/travel_tools.py:256-273 | a destination has types exactly when it is supported |
| Tools.FilterByType | tools/travel_tools.py:223-240 | the places are handed back unchanged |
| Tools.SelectionSplitsCandidates | tools/travel_tools.py:302-306 | the selected places and the at most 20 alternatives are consecutive, disjoint slices from the front; the selection is the first 5·days |
| Tools.Selected | tools/travel_tools.py:302-303 | the trip's places are a prefix of the candidates: five per day as far as they reach, for a day count of zero or more |
| Tools.Alternatives | tools/travel_tools.py:302-306 | the alternatives are at most 20 of the candidates that directly follow the trip's places |
| Tools.SelectedBriefs | tools/travel_tools.py:337-347 | one summary per selected place, with its name, type, score, coordinates and price level |
| Tools.AlternativeBriefs | tools/travel_tools.py:348-357 | one summary per alternative, with its name, type, score and coordinates |
| Tools.Shaped | tools/travel_tools.py:324-359 | the answer is the plan; `total_places` and the debug counts are the lengths of the lists they count; a debug block exists exactly with debug output, with at most 20 alternatives |
| Tools.ShapedMovesReport | tools/travel_tools.py:315-322 | with debug, the day-1 report moves into the debug block and no day keeps one; without debug the plan is as given |
| Tools.ReportMovedOut | tools/travel_tools.py:308-359 | on a planned trip the debug answer carries the report in the debug block only; the plain one keeps it on day 1 |
| Tools.ShapeAnswer | tools/travel_tools.py:315-361 | the answer built step by step is `Shaped` |
| Tools.TravelTools.constructor | tools/travel_tools.py:10-11 | empty search and distance caches |
| Tools.TravelTools.GenerateTravelItinerary | tools/travel_tools.py:275-361 | the search result of the loaded places; no candidates give the error answer and change no plan state; otherwise the shaped answer of `ItinerarySpec` over the selected places and alternatives |
| Tools.TravelTools.PlanCandidates | tools/travel_tools.py:301-361 | the selected places are planned with their alternatives and the answer is shaped |
| Conversation.Sanitize | services/travel_service.py:72-81 | same length; each 박 becomes 일 and every other character stays |
| Conversation.SanitizeRemovesAll | services/travel_service.py:79-81 | the sanitised text holds no 박 |
| Conversation.SanitizeIdempotent | services/travel_service.py:79-81 | sanitising twice is sanitising once |
| Conversation.SanitizeKeepsClean | services/travel_service.py:79-81 | a text without 박 is left as it is |
| Conversation.Items | services/travel_service.py:19-27 | the seven detail fields in order |
| Conversation.KeepPresent | services/travel_service.py:98 | a key is kept exactly when some item has a value for it, mapped to that value |
| Conversation.SanitizedConversation | services/travel_service.py:90-94 | the earlier messages unchanged and the last human message sanitised |
| Conversation.ExtractorNode | services/travel_service.py:83-99 | a last message that is not human gives no update; otherwise exactly the found details, with their values |
| Conversation.UpdateOnlyFillsSlots | services/travel_service.py:83-99 | the update names only detail fields and leaves every other slot as it was |
| Conversation.MissingAmong | services/travel_service.py:114-117 | the labels of exactly the falsy slots, in the slots' order |
| Conversation.MissingLabels | services/travel_service.py:105-117 | the missing labels are a subsequence of the six labels in fixed order |
| Conversation.MissingSlots | services/travel_service.py:105-117 | the loop computes `MissingLabels` |
| Conversation.CollectMissing | services/travel_service.py:114-117 | the loop over the required slots computes `MissingAmong` for any list of slots |
| Conversation.MissingExactly | services/travel_service.py:105-117 | a label is listed exactly when its slot is absent or empty; nothing is missing exactly when all six are filled |
| Conversation.RequirementsNeverRequired | services/travel_service.py:105-117 | setting or removing `requirements` never changes what is missing |
| Conversation.MissingIgnores | services/travel_service.py:114-117 | states that agree on which slots are falsy miss the same labels |
| Conversation.Falsy | services/travel_service.py:116 | a slot counts as known exactly when it holds a non-empty text |
| Conversation.ChooseBranch | services/travel_service.py:119-197 | summarise exactly after a tool message with nothing missing; ask exactly when something is missing, naming it; otherwise call the tools |
| Conversation.ChatbotBranch | services/travel_service.py:101-197 | the node's decision is `ChooseBranch` |
| Conversation.CompleteDetailsNeverAsk | services/travel_service.py:122-197 | with all six details known, it summarises after a tool answer and calls the tools otherwise |
| Conversation.ThreadId | services/travel_service.py:209 | a given non-empty thread id is used as it is |
| Conversation.DefaultThreadPerUser | services/travel_service.py:209 | without a thread id the thread is `{user_id}-travel-chat`, so each user gets their own |
| Conversation.UserText | services/travel_service.py:209 | `f"{user_id}"` is the id itself, or "None" for a missing id |
| Conversation.ToolContentsEmpty | services/travel_service.py:232 | there are tool contents exactly when some message is a tool message |
| Conversation.ToolContentsLast | services/travel_service.py:232-235 | the last tool content is the content of the last tool message |
| Conversation.ToolContents | services/travel_service.py:232 | the tool contents are no more than the messages |
| Conversation.PlanFrom | services/travel_service.py:237-248 | text decodes as JSON or falls back to the raw text; a dict is taken as it is; anything else gives none |
| Conversation.ProcessResult | services/travel_service.py:199-256 | the response is the last content; `is_completed` holds exactly when a tool message exists and the last message is the AI's; `plan_done` equals it; plan data is read from the last tool message only when completed |

## Left out

- Trigonometry: `_haversine_distance` and `haversine_distance_async` (services/route_optimizer.py:99-138). The distance is an uninterpreted parameter.
- The HTTP request of `_calculate_with_azure_maps`. The provider is a parameter, and every failure is `Failed`.
- Concurrency. This covers `calculate_distance_async`, `asyncio.gather` over the distance tasks, the event-loop handling of the synchronous `create_itinerary`, the thread runner of `generate_travel_itinerary`, and the lock and `asyncio.run` wrappers of the search service. The model asks the distance questions in list order.
- The search service's double check of the cache under the lock. It repeats the first check, so with one caller it never changes the outcome.
- The PostgreSQL query, the JSON file fallback, db_connection.py and the user-plan service. The places a query returns are a parameter.
- The language model and the agent graph: graph construction, the prompt texts and every `ainvoke`. The extraction result, the graph's final messages and `json.loads` are parameters.
- The HTTP layer, the schemas and the header check.
- The `/plans` and `/plans/update-hotel` endpoints beyond their level defaulting, which `Router.RequestLevel` models. The update-hotel endpoint replans without using the new hotel or the computed level, so the rest of its behaviour is the itinerary model itself.
- Logging and `time.time()`. The time is a parameter, and one call sees one instant.
- Floating point. Coordinates, distances and scores are exact reals.
- Common.RemoveFirst: with an absent element Python's `list.remove` raises `ValueError`; the model returns the list unchanged instead. The route never takes this path, because at services/route_optimizer.py:325 and 346 the removed place was just picked out of `unvisited` itself.
- Routing.Speed: the speed is read from a function of the mode, not a dictionary with a default; the values are the same.
- Routing.CacheKey: each `.4f` coordinate text is modelled as its sign and its digits. The digits are the exact value times 10^4, rounded half to even. A negative value that rounds to zero keeps its minus sign ("-0.0000"), so it gets a different key from "0.0000", as in the source (`Routing.NegativeZeroKeyDiffers`). Binary floating point is not modelled. A double whose exact binary value lies on the other side of a rounding midpoint from its decimal reading may print differently from what the model computes.
- Routing.RouteOptimizer.OptimizeRoute: places and the start are records, never empty dicts. So `if start_location` and `if nearest_place` always take the populated branch, and the `break` (services/route_optimizer.py:348-349) is unreachable. The source also breaks when no distance is below `float("inf")`, which needs every distance to be infinite or NaN; with exact real distances that cannot happen, and the floating-point line above covers it.
- Itinerary.ItinerarySpec: every place has a `type`, a latitude and a longitude. The source raises `KeyError` on a missing `type`. It also raises `KeyError` on a missing coordinate whenever there are more places than days, because `cluster_places` reads `p['latitude']` and `p['longitude']` directly (services/route_optimizer.py:243, 254, 276-277). Only the leg and alternative code reads coordinates with `.get(..., 0)`, so a missing coordinate counts as 0 there (services/itinerary_service.py:179-182, 235-238, 290-293; services/route_optimizer.py:335-338). The model covers none of these missing-field cases.
- Itinerary.ItinerarySpec: an alternative offered at several stops is the same dict in the source, so its `travel_from_previous` holds the last record written. The model keeps one record per alternative position, last write wins, and does not model the aliasing any further.
- Itinerary.Render: the `description` strings of the travel records are not modelled.
- Search.SearchResult: `place['score'] = score` writes into the dict that the cache also holds. In the model, the cached places are unchanged and the result carries copies with their scores.
- Router.BudgetLevel: `\d` is modelled as ASCII digits only. Python's limit of 4300 digits for `int()` is not modelled. `strip()` is omitted because it cannot change the digits or the unit marks. The quotient is exact, not a double.
- Conversation.ExtractorNode: the message list is never empty, because the graph always holds the new human message. `messages[-1]` on an empty list is not modelled.
- Conversation.ProcessResult: the result's message list is never empty, for the same reason.
- Message contents other than text and dict are `OtherContent`, and their plan data is none.
