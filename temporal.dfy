/** Python `date` and `time` values: ordering and the `isoformat()` strings the
    appointment document stores. */
module Temporal {
  import opened Wrappers
  import opened Text

  type Year = y: int | 1 <= y <= 9999 witness 1
  type Month = m: int | 1 <= m <= 12 witness 1
  type Day = d: int | 1 <= d <= 31 witness 1
  type Hour = h: int | 0 <= h < 24
  type Minute = m: int | 0 <= m < 60
  type Second = s: int | 0 <= s < 60
  type Microsecond = u: int | 0 <= u < 1000000

  /** A `datetime.date`; the day is bounded by 31 for every month. */
  datatype Date = Date(year: Year, month: Month, day: Day)

  /** A naive `datetime.time`. */
  datatype Time = Time(hour: Hour, minute: Minute, second: Second, microsecond: Microsecond)

  /** `a < b` on dates. */
  predicate Before(a: Date, b: Date) {
    a.year < b.year
    || (a.year == b.year && a.month < b.month)
    || (a.year == b.year && a.month == b.month && a.day < b.day)
  }

  /** Exactly one of `a < b`, `a == b`, `b < a` holds. */
  lemma BeforeTrichotomy(a: Date, b: Date)
    ensures !Before(a, a)
    ensures Before(a, b) ==> !Before(b, a)
    ensures a == b || Before(a, b) || Before(b, a)
  {
  }

  lemma Widths()
    ensures Pow10(2) == 100 && Pow10(4) == 10000 && Pow10(6) == 1000000
  {
    assert Pow10(1) == 10;
    assert Pow10(2) == 100;
    assert Pow10(3) == 1000;
    assert Pow10(4) == 10000;
    assert Pow10(5) == 100000;
  }

  /** `date.isoformat()`: `YYYY-MM-DD`. */
  function IsoDate(d: Date): (s: string)
    ensures |s| == 10 && s[4] == '-' && s[7] == '-'
  {
    Fixed(d.year, 4) + "-" + Fixed(d.month, 2) + "-" + Fixed(d.day, 2)
  }

  predicate AllDigits(s: string) {
    forall i :: 0 <= i < |s| ==> IsDigit(s[i])
  }

  /** Reads a `YYYY-MM-DD` string back into a date, or `None` when it is not one. */
  function ParseIsoDate(s: string): (r: Option<Date>)
    ensures r.Some? ==> |s| == 10
  {
    if |s| == 10 && s[4] == '-' && s[7] == '-'
       && AllDigits(s[..4]) && AllDigits(s[5..7]) && AllDigits(s[8..])
    then
      var y, m, d := ParseDigits(s[..4]), ParseDigits(s[5..7]), ParseDigits(s[8..]);
      if 1 <= y <= 9999 && 1 <= m <= 12 && 1 <= d <= 31 then Some(Date(y, m, d)) else None
    else None
  }

  /** The stored date string determines the date. */
  lemma IsoDateRoundTrip(d: Date)
    ensures ParseIsoDate(IsoDate(d)) == Some(d)
  {
    var s := IsoDate(d);
    assert s[..4] == Fixed(d.year, 4);
    assert s[5..7] == Fixed(d.month, 2);
    assert s[8..] == Fixed(d.day, 2);
    Widths();
    FixedRoundTrip(d.year, 4);
    FixedRoundTrip(d.month, 2);
    FixedRoundTrip(d.day, 2);
  }

  lemma IsoDateInjective(a: Date, b: Date)
    ensures IsoDate(a) == IsoDate(b) ==> a == b
  {
    IsoDateRoundTrip(a);
    IsoDateRoundTrip(b);
  }

  /** `time.isoformat()`: `HH:MM:SS`, followed by `.ffffff` only when the
      microsecond is not zero. */
  function IsoTime(t: Time): (s: string)
    ensures |s| == (if t.microsecond == 0 then 8 else 15)
    ensures s[2] == ':' && s[5] == ':'
  {
    Fixed(t.hour, 2) + ":" + Fixed(t.minute, 2) + ":" + Fixed(t.second, 2)
    + (if t.microsecond == 0 then "" else "." + Fixed(t.microsecond, 6))
  }

  /** Reads an `isoformat()` time string back, or `None` when it is not one. */
  function ParseIsoTime(s: string): (r: Option<Time>)
    ensures r.Some? ==> |s| == 8 || |s| == 15
  {
    if (|s| == 8 || (|s| == 15 && s[8] == '.' && AllDigits(s[9..])))
       && s[2] == ':' && s[5] == ':'
       && AllDigits(s[..2]) && AllDigits(s[3..5]) && AllDigits(s[6..8])
    then
      var h, m, sec := ParseDigits(s[..2]), ParseDigits(s[3..5]), ParseDigits(s[6..8]);
      var us := if |s| == 15 then ParseDigits(s[9..]) else 0;
      if h < 24 && m < 60 && sec < 60 && us < 1000000 && (|s| == 15 ==> us != 0)
      then Some(Time(h, m, sec, us)) else None
    else None
  }

  lemma IsoTimeRoundTrip(t: Time)
    ensures ParseIsoTime(IsoTime(t)) == Some(t)
  {
    var s := IsoTime(t);
    assert s[..2] == Fixed(t.hour, 2);
    assert s[3..5] == Fixed(t.minute, 2);
    assert s[6..8] == Fixed(t.second, 2);
    Widths();
    FixedRoundTrip(t.hour, 2);
    FixedRoundTrip(t.minute, 2);
    FixedRoundTrip(t.second, 2);
    if t.microsecond != 0 {
      assert s[9..] == Fixed(t.microsecond, 6);
      FixedRoundTrip(t.microsecond, 6);
    }
  }

  lemma IsoTimeInjective(a: Time, b: Time)
    ensures IsoTime(a) == IsoTime(b) ==> a == b
  {
    IsoTimeRoundTrip(a);
    IsoTimeRoundTrip(b);
  }
}
