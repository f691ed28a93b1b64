/**
  Instants as the converters see them: a JavaScript Date is a count of
  milliseconds since 1970-01-01T00:00:00Z, or the invalid date (NaN).
  `Date.UTC` is written out on the proleptic Gregorian calendar.

  `toISOString` is kept symbolic. Rendering is injective on valid instants
  and its text never holds a '/'. So the model keeps the millisecond count
  in place of the ISO text, and a `Span(a, b)` stands for the text
  `Iso(a) + '/' + Iso(b)`. Its `split('/')` pieces are `Iso(a)` and `Iso(b)`.
 */
module Dates {
  import opened JsRuntime

  datatype Instant = Time(ms: int) | InvalidDate

  /** The text `Iso(start) + '/' + Iso(end)`. */
  datatype Span = Span(start: int, end: int)

  const MsPerDay: int := 86_400_000
  /** Largest magnitude of a valid time value (TimeClip). */
  const MaxTime: int := 8_640_000_000_000_000

  /** Days from 1970-01-01 to the proleptic Gregorian date y-m-d. */
  function DaysFromCivil(y: int, m: int, d: int): int
    requires 1 <= m <= 12
  {
    var y' := if m <= 2 then y - 1 else y;
    var era := y' / 400;
    var yoe := y' - era * 400;
    var mp := if m > 2 then m - 3 else m + 9;
    var doy := (153 * mp + 2) / 5 + d - 1;
    var doe := yoe * 365 + yoe / 4 - yoe / 100 + doy;
    era * 146097 + doe - 719468
  }

  /** `parseInt(...) - 1`: NaN stays NaN. */
  function Minus1(n: Option<int>): Option<int> {
    if n.None? then None else Some(n.value - 1)
  }

  /** `new Date(Date.UTC(year, month, day, hours, minutes, seconds))` for
      arguments that are integers or NaN (`None`). A NaN argument gives the
      invalid date. Years 0 to 99 mean 1900 to 1999. A month outside 0..11
      carries into the year. Day, hour, minute and second add linearly.
      A result beyond TimeClip's range is invalid. */
  function DateUtc(year: Option<int>, month: Option<int>, day: Option<int>,
                   hours: Option<int>, minutes: Option<int>, seconds: Option<int>): (t: Instant)
    ensures (year.None? || month.None? || day.None? || hours.None? || minutes.None? || seconds.None?)
            ==> t == InvalidDate
    ensures t.Time? ==> -MaxTime <= t.ms <= MaxTime
  {
    if year.None? || month.None? || day.None? || hours.None? || minutes.None? || seconds.None? then
      InvalidDate
    else
      var y := if 0 <= year.value <= 99 then 1900 + year.value else year.value;
      var ym := y + month.value / 12;
      var mn := month.value % 12;
      var days := DaysFromCivil(ym, mn + 1, 1) + day.value - 1;
      var t := days * MsPerDay + hours.value * 3_600_000 + minutes.value * 60_000 + seconds.value * 1000;
      if -MaxTime <= t <= MaxTime then Time(t) else InvalidDate
  }

  /** `t.toISOString()`: a RangeError on the invalid date. */
  function IsoOf(t: Instant): (r: Result<int>)
    ensures r.Ok? <==> t.Time?
    ensures r.Ok? ==> r.value == t.ms
  {
    if t.Time? then Ok(t.ms) else Err(InvalidTimeValue)
  }

  /** `Date.UTC` on either side of midnight between April and May 2015. */
  lemma AprilMayBoundary()
    ensures DateUtc(Some(2015), Some(3), Some(30), Some(23), Some(59), Some(59)) == Time(1430438399000)
    ensures DateUtc(Some(2015), Some(4), Some(1), Some(0), Some(0), Some(0)) == Time(1430438400000)
    ensures DateUtc(Some(2015), Some(4), Some(1), Some(0), Some(0), Some(1)) == Time(1430438401000)
  {
    assert DaysFromCivil(2015, 4, 1) == 16526;
    assert DaysFromCivil(2015, 5, 1) == 16556;
  }
}
