// The schedule clock's text form in services/itinerary_service.py: minutes
// since midnight printed as `f"{m // 60:02d}:{m % 60:02d}"`, and the hour read
// back with `int(text.split(':')[0])` to choose a time slot.
module ClockText {

  function DigitChar(d: nat): (c: char)
    requires d < 10
    ensures '0' <= c <= '9' && c as int - '0' as int == d
  {
    "0123456789"[d]
  }

  function DigitValue(c: char): int {
    c as int - '0' as int
  }

  /** Decimal digits of n, without leading zeros. */
  function Digits(n: nat): string {
    if n < 10 then [DigitChar(n)] else Digits(n / 10) + [DigitChar(n % 10)]
  }

  /** `f"{n:02d}"`: at least two characters, zero-padded for 0..9; a negative
      number prints its sign and digits unpadded (it is already two wide). */
  function Pad2(n: int): string {
    if n < 0 then "-" + Digits(-n)
    else if n < 10 then "0" + Digits(n)
    else Digits(n)
  }

  /** `HH:MM` for a minute count. Python's `//` and `%` by 60 floor, as
      Dafny's do for a positive divisor. Reading the hour back gives the hour
      that was printed, `minutes // 60`, with no 24-hour wrap. */
  function FormatClock(minutes: int): (r: string)
    ensures HourOf(r) == minutes / 60
  {
    var h, m := minutes / 60, minutes % 60;
    Pad2Shape(h);
    BeforeColonOf(Pad2(h), Pad2(m));
    ParseIntOfPad2(h);
    Pad2(h) + ":" + Pad2(m)
  }

  /** A time of day on the schedule: the minute count since midnight, which
      prints as `FormatClock(minutes)`. */
  datatype Clock = Clock(minutes: int) {
    function Text(): string {
      FormatClock(minutes)
    }
  }

  /** `text.split(':')[0]`: the longest prefix without a colon. */
  function BeforeColon(text: string): (r: string)
    ensures r <= text && ':' !in r
    ensures |r| < |text| ==> text[|r|] == ':'
  {
    if text == [] || text[0] == ':' then [] else [text[0]] + BeforeColon(text[1..])
  }

  function ParseDigits(s: string): int {
    if s == [] then 0 else ParseDigits(s[..|s| - 1]) * 10 + DigitValue(s[|s| - 1])
  }

  /** `int(text)` on an optionally signed run of decimal digits. */
  function ParseInt(text: string): int {
    if 0 < |text| && text[0] == '-' then -ParseDigits(text[1..]) else ParseDigits(text)
  }

  /** The hour the slot choice reads back from a start time: `int()` of the
      text up to the first colon, or of the whole text when it has none. */
  function HourOf(clock: string): (r: int)
    ensures forall k :: 0 <= k <= |clock| && ':' !in clock[..k] && (k == |clock| || clock[k] == ':') ==>
      r == ParseInt(clock[..k])
  {
    var head := BeforeColon(clock);
    assert head == clock[..|head|];
    ParseInt(head)
  }

  /** Every character of `Digits(n)` is a decimal digit, and there is one. */
  lemma {:induction false} DigitsAreDigits(n: nat)
    ensures 0 < |Digits(n)|
    ensures forall i :: 0 <= i < |Digits(n)| ==> '0' <= Digits(n)[i] <= '9'
    decreases n
  {
    if n >= 10 {
      DigitsAreDigits(n / 10);
    }
  }

  /** A two-wide field never holds the separator. */
  lemma Pad2Shape(n: int)
    ensures 2 <= |Pad2(n)| && ':' !in Pad2(n)
  {
    DigitsAreDigits(if n < 0 then -n else n);
  }

  lemma {:induction false} ParseDigitsOfDigits(n: nat)
    ensures ParseDigits(Digits(n)) == n
    decreases n
  {
    if n >= 10 {
      var s := Digits(n);
      assert s[..|s| - 1] == Digits(n / 10);
      ParseDigitsOfDigits(n / 10);
    }
  }

  lemma ParseDigitsPadded(c: char)
    ensures ParseDigits(['0', c]) == DigitValue(c)
  {
    assert ['0', c][..1] == ['0'];
    assert ['0'][..0] == [];
  }

  lemma ParseIntOfPad2(n: int)
    ensures ParseInt(Pad2(n)) == n
  {
    var s := Pad2(n);
    if n < 0 {
      assert s[0] == '-' && s[1..] == Digits(-n);
      ParseDigitsOfDigits(-n);
    } else if n < 10 {
      assert s == ['0', DigitChar(n)];
      ParseDigitsPadded(DigitChar(n));
    } else {
      DigitsAreDigits(n);
      assert s == Digits(n) && s[0] != '-';
      ParseDigitsOfDigits(n);
    }
  }

  lemma {:induction false} BeforeColonOf(a: string, b: string)
    requires ':' !in a
    ensures BeforeColon(a + ":" + b) == a
    decreases |a|
  {
    if a != [] {
      assert (a + ":" + b)[1..] == a[1..] + ":" + b;
      BeforeColonOf(a[1..], b);
      assert a == [a[0]] + a[1..];
    }
  }

  /** Below 100 hours (0 <= minutes < 6000) the clock is five characters,
      `HH:MM`, with the minutes field two digits. */
  lemma FormatClockShape(minutes: int)
    requires 0 <= minutes < 6000
    ensures |FormatClock(minutes)| == 5 && FormatClock(minutes)[2] == ':'
  {
    var h := minutes / 60;
    if h >= 10 {
      assert Digits(h) == Digits(h / 10) + [DigitChar(h % 10)];
    }
    var m := minutes % 60;
    if m >= 10 {
      assert Digits(m) == Digits(m / 10) + [DigitChar(m % 10)];
    }
  }
}
