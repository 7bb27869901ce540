// The travel API's own logic: reading a budget string into a price level,
// defaulting the level when the request leaves it out, and the place
// replacement endpoint, which swaps one place, replans the whole trip with a
// fresh itinerary service and answers with the requested day.
module Router {
  import opened Common
  import opened Routing
  import opened Itinerary

  // ---------------------------------------------------------------------
  // Reading the amount: the first run of digits (`re.findall(r'\d+', s)[0]`)

  predicate IsDigit(c: char) {
    '0' <= c <= '9'
  }

  function DigitValue(c: char): nat
    requires IsDigit(c)
  {
    (c as int - '0' as int) as nat
  }

  function DigitChar(d: nat): (c: char)
    requires d < 10
    ensures IsDigit(c) && DigitValue(c) == d
  {
    ('0' as int + d) as char
  }

  predicate NoDigits(s: string) {
    forall i :: 0 <= i < |s| ==> !IsDigit(s[i])
  }

  predicate AllDigits(s: string) {
    forall i :: 0 <= i < |s| ==> IsDigit(s[i])
  }

  /** The text from the first digit on; empty when there is no digit. */
  function FromFirstDigit(s: string): (r: string)
    ensures |r| <= |s| && r == s[|s| - |r|..]
    ensures r == [] || IsDigit(r[0])
    ensures NoDigits(s[..|s| - |r|])
  {
    if s == [] then []
    else if IsDigit(s[0]) then s
    else
      var r := FromFirstDigit(s[1..]);
      assert s[..|s| - |r|] == [s[0]] + s[1..][..|s[1..]| - |r|];
      r
  }

  /** The longest prefix made of digits. */
  function LeadingDigits(s: string): (r: string)
    ensures |r| <= |s| && r == s[..|r|]
    ensures AllDigits(r)
    ensures |r| == |s| || !IsDigit(s[|r|])
  {
    if s == [] || !IsDigit(s[0]) then []
    else [s[0]] + LeadingDigits(s[1..])
  }

  /** `int(ds)` for a string of decimal digits (leading zeros allowed). */
  function DecimalValue(ds: string): nat
    requires AllDigits(ds)
  {
    if ds == [] then 0
    else DecimalValue(ds[..|ds| - 1]) * 10 + DigitValue(ds[|ds| - 1])
  }

  /** The decimal numeral of `n`, without leading zeros. */
  function Decimal(n: nat): (r: string)
    ensures r != [] && AllDigits(r)
  {
    if n < 10 then [DigitChar(n)] else Decimal(n / 10) + [DigitChar(n % 10)]
  }

  /** Reading a numeral gives back the number written. */
  lemma {:induction false} DecimalRoundTrip(n: nat)
    ensures DecimalValue(Decimal(n)) == n
  {
    if n >= 10 {
      DecimalRoundTrip(n / 10);
      var r := Decimal(n);
      assert r[..|r| - 1] == Decimal(n / 10);
    }
  }

  /** The first run of digits read as a number; None when the text holds no
      digit at all. */
  function FirstNumber(s: string): (r: Option<nat>)
    ensures r.None? <==> NoDigits(s)
  {
    var t := FromFirstDigit(s);
    if t == [] then
      assert s[..|s|] == s;
      None
    else
      assert s[|s| - |t|] == t[0];
      Some(DecimalValue(LeadingDigits(t)))
  }

  lemma {:induction false} FromFirstDigitSkips(pre: string, rest: string)
    requires NoDigits(pre) && rest != [] && IsDigit(rest[0])
    ensures FromFirstDigit(pre + rest) == rest
    decreases |pre|
  {
    if pre != [] {
      assert (pre + rest)[1..] == pre[1..] + rest;
      FromFirstDigitSkips(pre[1..], rest);
    }
  }

  lemma {:induction false} LeadingDigitsStops(ds: string, post: string)
    requires AllDigits(ds)
    requires post == [] || !IsDigit(post[0])
    ensures LeadingDigits(ds + post) == ds
    decreases |ds|
  {
    if ds != [] {
      assert (ds + post)[1..] == ds[1..] + post;
      LeadingDigitsStops(ds[1..], post);
    } else {
      assert ds + post == post;
    }
  }

  /** Only the first number in the text counts: whatever follows the first
      run of digits (other numbers included) is ignored. */
  lemma FirstNumberReadsFirstRun(pre: string, n: nat, post: string)
    requires NoDigits(pre)
    requires post == [] || !IsDigit(post[0])
    ensures FirstNumber(pre + Decimal(n) + post) == Some(n)
  {
    var d := Decimal(n);
    assert pre + d + post == pre + (d + post);
    FromFirstDigitSkips(pre, d + post);
    LeadingDigitsStops(d, post);
    DecimalRoundTrip(n);
  }

  // ---------------------------------------------------------------------
  // `calculate_budget_level`

  /** '억' (10^8 won) takes priority over '만' (10^4 won), anywhere in the
      text; without either the number is in won. */
  function UnitOf(s: string): (r: nat)
    ensures r == 100000000 || r == 10000 || r == 1
    ensures '억' in s ==> r == 100000000
  {
    if '억' in s then 100000000 else if '만' in s then 10000 else 1
  }

  /** `budget_num / duration_days if duration_days > 0 else budget_num`. */
  function PerDay(amount: nat, days: int): (r: real)
    ensures r >= 0.0
    ensures days > 0 ==> r * days as real == amount as real
    ensures days <= 0 ==> r == amount as real
  {
    if days > 0 then amount as real / days as real else amount as real
  }

  /** The smallest quotient Python's `int / int` cannot round to a double:
      2^1024 - 2^970, half-way between the largest double and 2^1024. Such a
      quotient raises OverflowError. */
  const DoubleOverflow: nat := 179769313486231580793728971405303415079934132710037826936173778980444968292764750946649017977587207096330286416692887910946555547851940402630657488671505820681908902000708383676273854845817711531764475730270069855571366959622842914819860834936475292719074168444365510704342711559699508093042880177904174497792

  /** The price level for a per-day budget in won: under 10000 is 1, up to
      30000 is 2, under 100000 is 3, anything more is 4. */
  function LevelOf(perDay: real): (r: int)
    ensures 1 <= r <= 4
    ensures r == 1 <==> perDay < 10000.0
    ensures r == 4 <==> perDay >= 100000.0
    ensures r <= 2 <==> perDay <= 30000.0
  {
    if perDay < 10000.0 then 1
    else if perDay <= 30000.0 then 2
    else if perDay < 100000.0 then 3
    else 4
  }

  /** A larger daily budget never gets a lower level. */
  lemma LevelMonotone(a: real, b: real)
    requires a <= b
    ensures LevelOf(a) <= LevelOf(b)
  {
  }

  /** Whether the division raises: only a positive day count divides, and
      the quotient then has to fit a double. */
  predicate Overflows(amount: nat, days: int) {
    days > 0 && amount >= DoubleOverflow * days
  }

  /** `calculate_budget_level(budget_str, duration_days)`: the level of the
      first number in the text, scaled by its unit and spread over the days.
      No number, and any exception (the division overflowing a double), give
      level 2. */
  function BudgetLevel(budget: string, days: int): (r: int)
    ensures 1 <= r <= 4
    ensures NoDigits(budget) ==> r == 2
  {
    match FirstNumber(budget)
    case None => 2
    case Some(n) =>
      var amount := n * UnitOf(budget);
      if Overflows(amount, days) then 2 else LevelOf(PerDay(amount, days))
  }

  /** The level of a text whose first number is `n`: that many won, ten
      thousands or hundred millions spread over the days. */
  lemma BudgetLevelOfNumber(s: string, pre: string, n: nat, post: string, days: int)
    requires s == pre + Decimal(n) + post
    requires NoDigits(pre)
    requires post == [] || !IsDigit(post[0])
    ensures BudgetLevel(s, days) ==
      if Overflows(n * UnitOf(s), days) then 2 else LevelOf(PerDay(n * UnitOf(s), days))
  {
    FirstNumberReadsFirstRun(pre, n, post);
  }

  /** A unit mark is no digit, so it occurs after a numeral exactly when it
      occurs in the text after it. */
  lemma MarkAfterNumeral(ds: string, rest: string, mark: char)
    requires AllDigits(ds) && !IsDigit(mark)
    ensures mark in ds + rest <==> mark in rest
  {
    if mark in ds + rest {
      var i :| 0 <= i < |ds + rest| && (ds + rest)[i] == mark;
      if i >= |ds| {
        assert rest[i - |ds|] == mark;
      }
    }
    if mark in rest {
      var j :| 0 <= j < |rest| && rest[j] == mark;
      assert (ds + rest)[|ds| + j] == mark;
    }
  }

  /** The unit of a numeral followed by text is the unit of that text. */
  lemma NumeralUnit(ds: string, rest: string)
    requires AllDigits(ds)
    ensures UnitOf(ds + rest) == UnitOf(rest)
  {
    MarkAfterNumeral(ds, rest, '억');
    MarkAfterNumeral(ds, rest, '만');
  }

  lemma PerDayMonotone(a1: nat, a2: nat, days: int)
    requires a1 <= a2
    ensures PerDay(a1, days) <= PerDay(a2, days)
  {
    if days > 0 {
      var d := days as real;
      assert a2 as real / d - a1 as real / d == (a2 - a1) as real / d;
    }
  }

  /** The level of a numeral followed by a unit text. */
  lemma NumeralLevel(n: nat, unit: string, days: int)
    requires unit == [] || !IsDigit(unit[0])
    ensures BudgetLevel(Decimal(n) + unit, days) ==
      if Overflows(n * UnitOf(unit), days) then 2 else LevelOf(PerDay(n * UnitOf(unit), days))
  {
    var s := Decimal(n) + unit;
    assert [] + Decimal(n) + unit == s;
    BudgetLevelOfNumber(s, [], n, unit, days);
    NumeralUnit(Decimal(n), unit);
    var amount := n * UnitOf(unit);
    assert n * UnitOf(s) == amount;
  }

  /** More money in the same unit over the same days never lowers the level,
      as long as the larger amount does not overflow the division. */
  lemma BudgetLevelMonotone(n1: nat, n2: nat, unit: string, days: int)
    requires n1 <= n2
    requires unit == [] || !IsDigit(unit[0])
    requires !Overflows(n2 * UnitOf(unit), days)
    ensures BudgetLevel(Decimal(n1) + unit, days) <= BudgetLevel(Decimal(n2) + unit, days)
  {
    var u := UnitOf(unit);
    NumeralLevel(n1, unit, days);
    NumeralLevel(n2, unit, days);
    assert n1 * u <= n2 * u;
    PerDayMonotone(n1 * u, n2 * u, days);
    LevelMonotone(PerDay(n1 * u, days), PerDay(n2 * u, days));
  }

  /** A budget too large for a double falls into level 2, like a text
      without a number. */
  lemma HugeBudgetIsLevelTwo()
    ensures BudgetLevel(Decimal(DoubleOverflow), 1) == 2
  {
    BudgetLevelOfNumber(Decimal(DoubleOverflow), [], DoubleOverflow, [], 1);
  }

  /** The amounts the level was documented with, as the code reads them: five
      ten-thousands for one day is 50000 won a day and level 3; 80, 200 and
      500 ten-thousands over four days are 200000 won a day or more, level 4. */
  lemma DocumentedExamples()
    ensures BudgetLevel(Decimal(5) + "만원", 1) == 3
    ensures BudgetLevel(Decimal(80) + "만원", 4) == 4
    ensures BudgetLevel(Decimal(200) + "만원", 4) == 4
    ensures BudgetLevel(Decimal(500) + "만원", 4) == 4
  {
    DocumentedExample(5, 1);
    DocumentedExample(80, 4);
    DocumentedExample(200, 4);
    DocumentedExample(500, 4);
  }

  lemma DocumentedExample(n: nat, days: nat)
    requires 1 <= days && n * 10000 < DoubleOverflow
    ensures BudgetLevel(Decimal(n) + "만원", days) == LevelOf(PerDay(n * 10000, days))
  {
    assert UnitOf("만원") == 10000;
    NumeralLevel(n, "만원", days);
  }

  /** The level a plan request ends up with: the one it names, unchecked, or
      else the one its budget text and day count give. */
  function RequestLevel(requested: Option<int>, budget: string, days: int): (r: int)
    ensures requested.Some? ==> r == requested.value
    ensures requested.None? ==> 1 <= r <= 4 && r == BudgetLevel(budget, days)
  {
    match requested
    case Some(level) => level
    case None => BudgetLevel(budget, days)
  }

  // ---------------------------------------------------------------------
  // `replace_place_and_recalculate`

  /** The test that picks the place to replace: same name and same latitude. */
  predicate SamePlace(p: Place, q: Place) {
    p.name == q.name && p.lat == q.lat
  }

  /** Every place matching `oldPlace` becomes `newPlace`, the rest stay, in order. */
  function Replaced(ps: seq<Place>, oldPlace: Place, newPlace: Place): (r: seq<Place>)
    ensures |r| == |ps|
    ensures forall i :: 0 <= i < |ps| ==> r[i] == if SamePlace(ps[i], oldPlace) then newPlace else ps[i]
  {
    if ps == [] then []
    else Replaced(ps[..|ps| - 1], oldPlace, newPlace) + [if SamePlace(ps[|ps| - 1], oldPlace) then newPlace else ps[|ps| - 1]]
  }

  /** The `updated_places` loop. */
  method ReplacePlaces(all: seq<Place>, oldPlace: Place, newPlace: Place) returns (updated: seq<Place>)
    ensures updated == Replaced(all, oldPlace, newPlace)
  {
    updated := [];
    for i := 0 to |all|
      invariant updated == Replaced(all[..i], oldPlace, newPlace)
    {
      assert all[..i + 1][..i] == all[..i];
      if SamePlace(all[i], oldPlace) {
        updated := updated + [newPlace];
      } else {
        updated := updated + [all[i]];
      }
    }
    assert all[..|all|] == all;
  }

  /** With no place to replace, the list is unchanged. */
  lemma ReplacedNothing(ps: seq<Place>, oldPlace: Place, newPlace: Place)
    requires forall i :: 0 <= i < |ps| ==> !SamePlace(ps[i], oldPlace)
    ensures Replaced(ps, oldPlace, newPlace) == ps
  {
  }

  /** Unless the new place itself passes for the old one, the old place is
      gone afterwards. */
  lemma ReplacedRemovesOld(ps: seq<Place>, oldPlace: Place, newPlace: Place)
    requires !SamePlace(newPlace, oldPlace)
    ensures forall p :: p in Replaced(ps, oldPlace, newPlace) ==> !SamePlace(p, oldPlace)
  {
  }

  /** Replacing twice is replacing once. */
  lemma ReplacedTwice(ps: seq<Place>, oldPlace: Place, newPlace: Place)
    ensures Replaced(Replaced(ps, oldPlace, newPlace), oldPlace, newPlace) == Replaced(ps, oldPlace, newPlace)
  {
  }

  /** What `day_schedule` becomes: entry `day - 1` with Python's indexing
      (so a day of 0 or below counts from the last day), None past the last
      day, and IndexError (a 500 answer) where the index misses the list. */
  datatype DayChoice<T> = Chosen(schedule: Option<T>) | IndexError

  function SelectDay<T>(itinerary: seq<T>, day: int): (r: DayChoice<T>)
    ensures r.IndexError? <==> day <= -|itinerary|
    ensures 1 <= day <= |itinerary| ==> r == Chosen(Some(itinerary[day - 1]))
    ensures |itinerary| < day ==> r == Chosen(None)
    ensures -|itinerary| < day < 1 ==> r == Chosen(Some(itinerary[|itinerary| + day - 1]))
  {
    if day <= |itinerary| then
      match PyIndex(itinerary, day - 1)
      case Some(plan) => Chosen(Some(plan))
      case None => IndexError
    else Chosen(None)
  }

  /** On a planned trip, asking for day `d` between 1 and the trip's length
      answers with the plan numbered `d`; asking for day 0 answers with the
      last day's plan. */
  lemma SelectedDayIsThatDay(c: Cache, cfg: Config, provider: Provider, places: seq<Place>, days: int, d: int)
    requires WellFormed(c, cfg.maxSize) && 1 <= days
    ensures var itinerary := ItinerarySpec(None, c, cfg, provider, places, days, []).itinerary;
      && (1 <= d <= days ==> SelectDay(itinerary, d).Chosen? && SelectDay(itinerary, d).schedule.Some?
                             && SelectDay(itinerary, d).schedule.value.day == d)
      && (SelectDay(itinerary, 0).Chosen? && SelectDay(itinerary, 0).schedule.Some?
          && SelectDay(itinerary, 0).schedule.value.day == days)
      && (days < d ==> SelectDay(itinerary, d) == Chosen(None))
  {
    ItineraryDays(None, c, cfg, provider, places, days, []);
  }

  datatype ReplaceResponse = ReplaceResponse(day: int, oldPlace: Place, newPlace: Place,
                                             daySchedule: Option<DayPlan>, updatedItinerary: seq<DayPlan>)

  /** `POST /plans/replace-place`: swap the place, replan every day with a
      new itinerary service (an empty distance cache), answer with the asked
      day and the whole new itinerary; None stands for the 500 answer an
      IndexError turns into. */
  method ReplacePlaceAndRecalculate(day: int, oldPlace: Place, newPlace: Place, all: seq<Place>, days: int,
                                    useAzureMaps: bool, haversine: Haversine, provider: Provider)
    returns (response: Option<ReplaceResponse>)
    ensures var itinerary := ItinerarySpec(None, Cache([], map[]), Config(useAzureMaps, DefaultCacheMaxSize, haversine),
                                           provider, Replaced(all, oldPlace, newPlace), days, []).itinerary;
      match SelectDay(itinerary, day)
      case IndexError => response.None?
      case Chosen(schedule) => response == Some(ReplaceResponse(day, oldPlace, newPlace, schedule, itinerary))
  {
    var places := ReplacePlaces(all, oldPlace, newPlace);
    var service := new ItineraryService(useAzureMaps, haversine);
    var answer, _ := service.CreateItineraryAsync(places, days, [], false, provider);
    var itinerary := answer.itinerary;
    match SelectDay(itinerary, day)
    case IndexError =>
      response := None;
    case Chosen(schedule) =>
      response := Some(ReplaceResponse(day, oldPlace, newPlace, schedule, itinerary));
  }
}
