// Values shared by the planning engine: the candidate place record, Python's
// rounding and truncation on numbers, and the list helpers the engine relies on
// (first-minimum and first-maximum selection, list.remove, concatenation).
module Common {

  datatype Option<+T> = None | Some(value: T) {
    function GetOr(default: T): T {
      match this
      case Some(v) => v
      case None => default
    }
  }

  /** A candidate place as the engine's dictionaries carry it: `type` is `kind`,
      `category` (the tag list) is `tags`. `score` and `price_level` may be
      absent from the record; readers then use 0 and 2. */
  datatype Place = Place(
    name: string,
    kind: string,
    lat: real,
    lon: real,
    score: Option<real>,
    priceLevel: Option<int>,
    destination: string,
    tags: seq<string>)

  /** `p.get('score', 0)` */
  function ScoreOf(p: Place): real {
    p.score.GetOr(0.0)
  }

  // ---------------------------------------------------------------------
  // Python's round() and int() on numbers

  /** Python's `round(x)`: nearest integer, ties to the even neighbour. */
  function Round(x: real): (r: int)
    ensures x - 0.5 <= r as real <= x + 0.5
  {
    var f := x.Floor;
    var frac := x - f as real;
    if frac < 0.5 then f
    else if frac > 0.5 then f + 1
    else if f % 2 == 0 then f else f + 1
  }

  /** Rounding never reverses the order of two numbers. */
  lemma RoundMonotone(x: real, y: real)
    requires x <= y
    ensures Round(x) <= Round(y)
  {
    var fx, fy := x.Floor, y.Floor;
    assert fx <= fy;
    if fx < fy {
      assert Round(x) <= fx + 1 <= fy <= Round(y);
    } else {
      assert x - fx as real <= y - fy as real;
    }
  }

  /** Python's `round(x, 2)`. */
  function Round2(x: real): real {
    Round(x * 100.0) as real / 100.0
  }

  /** Python's `int(x)` on a float: truncation toward zero. */
  function Trunc(x: real): (r: int)
    ensures 0.0 <= x ==> 0 <= r && r as real <= x < r as real + 1.0
    ensures x < 0.0 ==> r <= 0 && r as real - 1.0 < x <= r as real
  {
    if x >= 0.0 then x.Floor else -((-x).Floor)
  }

  // ---------------------------------------------------------------------
  // Selecting the first minimum or maximum, as a loop with a strict `<`
  // starting from infinity selects it

  /** Scan of `ds[i..]` with the best index so far and its value (None stands
      for `float('inf')`). */
  function FirstMinFrom(ds: seq<real>, i: nat, best: nat, least: Option<real>): (r: nat)
    ensures best < |ds| || (i < |ds| && least.None?) ==> r < |ds|
    decreases |ds| - i
  {
    if i >= |ds| then best
    else if least.None? || ds[i] < least.value then FirstMinFrom(ds, i + 1, i, Some(ds[i]))
    else FirstMinFrom(ds, i + 1, best, least)
  }

  /** One step of the scan: the element at i either becomes the best so far
      or does not. */
  lemma FirstMinFromStep(ds: seq<real>, i: nat, best: nat, least: Option<real>)
    requires i < |ds|
    ensures FirstMinFrom(ds, i, best, least) ==
      if least.None? || ds[i] < least.value then FirstMinFrom(ds, i + 1, i, Some(ds[i]))
      else FirstMinFrom(ds, i + 1, best, least)
  {
  }

  /** Index of the first smallest element. */
  function FirstMin(ds: seq<real>): nat {
    FirstMinFrom(ds, 0, 0, None)
  }

  lemma {:induction false} FirstMinFromCorrect(ds: seq<real>, i: nat, best: nat, least: Option<real>)
    requires i <= |ds|
    requires i == 0 ==> least.None? && best == 0
    requires 0 < i ==> best < i && least == Some(ds[best])
    requires 0 < i ==> forall j :: 0 <= j < i ==> ds[best] <= ds[j]
    requires 0 < i ==> forall j :: 0 <= j < best ==> ds[best] < ds[j]
    requires 0 < |ds|
    ensures FirstMinFrom(ds, i, best, least) < |ds|
    ensures forall j :: 0 <= j < |ds| ==> ds[FirstMinFrom(ds, i, best, least)] <= ds[j]
    ensures forall j :: 0 <= j < FirstMinFrom(ds, i, best, least) ==> ds[FirstMinFrom(ds, i, best, least)] < ds[j]
    decreases |ds| - i
  {
    if i < |ds| {
      if least.None? || ds[i] < least.value {
        FirstMinFromCorrect(ds, i + 1, i, Some(ds[i]));
      } else {
        FirstMinFromCorrect(ds, i + 1, best, least);
      }
    }
  }

  /** The selected index holds a smallest value, and every earlier index holds a
      strictly larger one: ties go to the lowest index. */
  lemma FirstMinIsFirstMinimal(ds: seq<real>)
    requires 0 < |ds|
    ensures FirstMin(ds) < |ds|
    ensures forall j :: 0 <= j < |ds| ==> ds[FirstMin(ds)] <= ds[j]
    ensures forall j :: 0 <= j < FirstMin(ds) ==> ds[FirstMin(ds)] < ds[j]
  {
    FirstMinFromCorrect(ds, 0, 0, None);
  }

  function Negated(ds: seq<real>): (r: seq<real>)
    ensures |r| == |ds|
  {
    seq(|ds|, i requires 0 <= i < |ds| => -ds[i])
  }

  /** Index of the first largest element: what Python's `max` keeps, since it
      replaces its candidate only on a strictly larger key. */
  function FirstMax(ds: seq<real>): nat {
    FirstMin(Negated(ds))
  }

  lemma FirstMaxIsFirstMaximal(ds: seq<real>)
    requires 0 < |ds|
    ensures FirstMax(ds) < |ds|
    ensures forall j :: 0 <= j < |ds| ==> ds[j] <= ds[FirstMax(ds)]
    ensures forall j :: 0 <= j < FirstMax(ds) ==> ds[j] < ds[FirstMax(ds)]
  {
    var ns := Negated(ds);
    FirstMinIsFirstMinimal(ns);
    forall j | 0 <= j < |ds| ensures ds[j] <= ds[FirstMax(ds)] {
      assert ns[FirstMax(ds)] <= ns[j];
    }
    forall j | 0 <= j < FirstMax(ds) ensures ds[j] < ds[FirstMax(ds)] {
      assert ns[FirstMax(ds)] < ns[j];
    }
  }

  function Scores(ps: seq<Place>): (r: seq<real>)
    ensures |r| == |ps|
  {
    seq(|ps|, i requires 0 <= i < |ps| => ScoreOf(ps[i]))
  }

  /** Position of `max(ps, key=lambda x: x.get('score', 0))`. */
  function BestScored(ps: seq<Place>): nat {
    FirstMax(Scores(ps))
  }

  /** The best-scored place has the highest score (absent scores read as 0) and
      is the first place with that score. */
  lemma BestScoredIsFirstHighest(ps: seq<Place>)
    requires 0 < |ps|
    ensures BestScored(ps) < |ps|
    ensures forall j :: 0 <= j < |ps| ==> ScoreOf(ps[j]) <= ScoreOf(ps[BestScored(ps)])
    ensures forall j :: 0 <= j < BestScored(ps) ==> ScoreOf(ps[j]) < ScoreOf(ps[BestScored(ps)])
  {
    var ss := Scores(ps);
    FirstMaxIsFirstMaximal(ss);
    forall j | 0 <= j < |ps| ensures ScoreOf(ps[j]) <= ScoreOf(ps[BestScored(ps)]) {
      assert ss[j] <= ss[BestScored(ps)];
    }
    forall j | 0 <= j < BestScored(ps) ensures ScoreOf(ps[j]) < ScoreOf(ps[BestScored(ps)]) {
      assert ss[j] < ss[BestScored(ps)];
    }
  }

  // ---------------------------------------------------------------------
  // Lists

  /** Python's `list.remove(x)`: drops the first element equal to `x`. */
  function RemoveFirst<T(==)>(s: seq<T>, x: T): (r: seq<T>)
    ensures x in s ==> |r| == |s| - 1 && multiset(r) == multiset(s) - multiset{x}
    ensures x in s ==> exists i :: 0 <= i < |s| && s[i] == x && x !in s[..i] && r == s[..i] + s[i + 1..]
    ensures x !in s ==> r == s
  {
    if s == [] then []
    else if s[0] == x then RemoveHead(s, x); s[1..]
    else
      var t := RemoveFirst(s[1..], x);
      RemoveFirstShift(s, x, t);
      [s[0]] + t
  }

  /** Removing the head when it is `x`. */
  lemma RemoveHead<T>(s: seq<T>, x: T)
    requires s != [] && s[0] == x
    ensures |s[1..]| == |s| - 1 && multiset(s[1..]) == multiset(s) - multiset{x}
    ensures exists i :: 0 <= i < |s| && s[i] == x && x !in s[..i] && s[1..] == s[..i] + s[i + 1..]
  {
    assert s == [s[0]] + s[1..];
    assert s[..0] + s[0 + 1..] == s[1..];
  }

  /** The first occurrence of `x` in `s[1..]` is the first in `s` when `s[0]` is not `x`. */
  lemma RemoveFirstShift<T>(s: seq<T>, x: T, t: seq<T>)
    requires s != [] && s[0] != x
    requires x in s[1..] ==> |t| == |s[1..]| - 1 && multiset(t) == multiset(s[1..]) - multiset{x}
    requires x in s[1..] ==> exists j :: 0 <= j < |s[1..]| && s[1..][j] == x && x !in s[1..][..j] && t == s[1..][..j] + s[1..][j + 1..]
    requires x !in s[1..] ==> t == s[1..]
    ensures x in s ==> |[s[0]] + t| == |s| - 1 && multiset([s[0]] + t) == multiset(s) - multiset{x}
    ensures x in s ==> exists i :: 0 <= i < |s| && s[i] == x && x !in s[..i] && [s[0]] + t == s[..i] + s[i + 1..]
    ensures x !in s ==> [s[0]] + t == s
  {
    assert s == [s[0]] + s[1..];
    if x in s {
      ShiftMultiset(s[0], s[1..], x, t);
      var j :| 0 <= j < |s[1..]| && s[1..][j] == x && x !in s[1..][..j] && t == s[1..][..j] + s[1..][j + 1..];
      ShiftPosition(s, x, t, j);
    }
  }

  lemma ShiftMultiset<T>(h: T, u: seq<T>, x: T, t: seq<T>)
    requires h != x && multiset(t) == multiset(u) - multiset{x}
    ensures multiset([h] + t) == multiset([h] + u) - multiset{x}
  {
    assert multiset([h] + t) == multiset{h} + multiset(t);
    assert multiset([h] + u) == multiset{h} + multiset(u);
  }

  lemma ShiftPosition<T>(s: seq<T>, x: T, t: seq<T>, j: nat)
    requires s != [] && s[0] != x
    requires j < |s[1..]| && s[1..][j] == x && x !in s[1..][..j] && t == s[1..][..j] + s[1..][j + 1..]
    ensures s[j + 1] == x && x !in s[..j + 1] && [s[0]] + t == s[..j + 1] + s[j + 2..]
  {
    assert s[..j + 1] == [s[0]] + s[1..][..j];
    assert s[j + 2..] == s[1..][j + 1..];
  }

  /** Putting back in front an element taken out of `s` restores its multiset. */
  lemma ConsAfterRemove<T>(s: seq<T>, x: T, w: seq<T>)
    requires x in s && multiset(w) == multiset(RemoveFirst(s, x))
    ensures |[x] + w| == |s| && multiset([x] + w) == multiset(s)
  {
    assert |multiset(w)| == |w|;
  }

  lemma AppendAssoc<T>(a: seq<T>, b: seq<T>, c: seq<T>)
    ensures a + (b + c) == (a + b) + c
  {
  }

  lemma AppendEmpty<T>(s: seq<T>)
    ensures [] + s == s && s + [] == s && s[0..] == s && s[|s|..] == []
  {
  }

  lemma ElementAfter<T>(s: seq<T>, a: seq<T>, x: T, b: seq<T>)
    requires s == a + ([x] + b)
    ensures s[|a|] == x
  {
  }

  /** No element occurs twice. */
  ghost predicate Distinct<T>(s: seq<T>)
    decreases |s|
  {
    s == [] || (s[|s| - 1] !in s[..|s| - 1] && Distinct(s[..|s| - 1]))
  }

  lemma DistinctSnoc<T>(s: seq<T>, x: T)
    requires Distinct(s) && x !in s
    ensures Distinct(s + [x])
  {
    assert (s + [x])[..|s|] == s;
  }

  /** Dropping the first element keeps the rest distinct, and the dropped
      element does not occur in the rest. */
  lemma {:induction false} DistinctTail<T>(s: seq<T>)
    requires Distinct(s) && s != []
    ensures Distinct(s[1..]) && s[0] !in s[1..]
    decreases |s|
  {
    var n := |s|;
    if n > 1 {
      var init := s[..n - 1];
      DistinctTail(init);
      assert s[1..] == init[1..] + [s[n - 1]];
      DistinctSnoc(init[1..], s[n - 1]);
    }
  }

  function Concat<T>(ss: seq<seq<T>>): seq<T> {
    if ss == [] then [] else Concat(ss[..|ss| - 1]) + ss[|ss| - 1]
  }

  /** `a` is `b` with some elements left out, the rest in their order. */
  ghost predicate IsSubsequence<T>(a: seq<T>, b: seq<T>)
    decreases |b|
  {
    a == [] ||
    (b != [] &&
      ((a[|a| - 1] == b[|b| - 1] && IsSubsequence(a[..|a| - 1], b[..|b| - 1])) ||
       IsSubsequence(a, b[..|b| - 1])))
  }

  // ---------------------------------------------------------------------
  // Python's indexing and slicing on lists

  /** `s[i]`: a negative index counts from the end; None where Python raises
      IndexError. */
  function PyIndex<T>(s: seq<T>, i: int): (r: Option<T>)
    ensures r.Some? <==> -|s| <= i < |s|
    ensures 0 <= i < |s| ==> r == Some(s[i])
    ensures -|s| <= i < 0 ==> r == Some(s[|s| + i])
  {
    if 0 <= i < |s| then Some(s[i])
    else if -|s| <= i < 0 then Some(s[|s| + i])
    else None
  }

  /** Where a slice bound lands: a negative bound counts from the end, and
      either kind is clamped into the list. */
  function SliceBound(i: int, len: nat): (r: nat)
    ensures r <= len
    ensures 0 <= i ==> r == Min(i, len)
    ensures i < 0 ==> r == Max(len + i, 0)
  {
    if i < 0 then (if len + i < 0 then 0 else len + i)
    else if i < len then i else len
  }

  /** `s[start:stop]`, a missing bound being the list's own end. */
  function PySlice<T>(s: seq<T>, start: Option<int>, stop: Option<int>): (r: seq<T>)
    ensures |r| <= |s|
  {
    var lo := if start.None? then 0 else SliceBound(start.value, |s|);
    var hi := if stop.None? then |s| else SliceBound(stop.value, |s|);
    if lo < hi then s[lo..hi] else []
  }

  /** Slicing `s[a:b]` with `0 <= a <= b` takes the elements from position
      `a` up to, not including, position `b`, as far as the list reaches. */
  lemma PySliceNatural<T>(s: seq<T>, a: nat, b: nat)
    requires a <= b
    ensures PySlice(s, Some(a), Some(b)) == s[Min(a, |s|)..Min(b, |s|)]
    ensures PySlice(s, None, Some(b)) == s[..Min(b, |s|)]
  {
  }

  function Min(a: int, b: int): int { if a <= b then a else b }
  function Max(a: int, b: int): int { if a <= b then b else a }
}
