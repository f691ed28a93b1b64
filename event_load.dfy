/**
  `loadEventLink` (lib/link.ts): raw link events become one list of runs
  per satellite pair. A run is a list of event parts in which each part
  starts at most one second after the previous one ends.

  The events are visited in order. `lastEvent` starts as the first event
  and moves only to events the keyword filter keeps. Each kept event opens
  a new run for its pair, or joins the pair's last run when `checkEvent`
  finds it continues `lastEvent`. Positions are converted before the
  filter is applied, so a bad position fails the whole load even when its
  event is filtered out.
 */
module EventLoad {
  import opened JsRuntime
  import opened Dates
  import opened Frame

  /** `Link`: one raw event. `type` (a string or a number) is kept as its
      text: the code only copies it into the event's part and never reads
      it, so its JavaScript type changes nothing here. */
  datatype Link = Link(gnss: Option<string>, leo: Option<string>, kind: string,
                       position: seq<seq<string>>, interval: string)

  /** `EventLinks`: the events and the `start-end` text of the window. */
  datatype EventLinks = EventLinks(name: string, interval: string, events: seq<Link>)

  /** `{ type, interval, position }`: an event with its interval as
      `Iso(start)/Iso(end)` and its positions converted. */
  datatype EventPart = EventPart(kind: string, interval: Span, position: seq<Sample>)

  /** `LinksObject`: the key "interval" first, then one key per satellite
      pair in the order the pairs first appear, each holding its runs. */
  datatype LinksObject = LinksObject(interval: Span, ids: seq<string>,
                                     runs: map<string, seq<seq<EventPart>>>)

  // ------------------------------------------------------------ dates

  /** The slices `stringToDate` reads: year, month, day, hours, minutes,
      seconds. */
  const FieldBounds: seq<(nat, nat)> := [(0, 4), (4, 6), (6, 8), (8, 10), (10, 12), (12, 14)]

  /** `parseInt(s.slice(from, to))` for each pair of bounds, in order. */
  function Fields(s: string, bounds: seq<(nat, nat)>): (fs: seq<Option<int>>)
    ensures |fs| == |bounds|
    decreases |bounds|
  {
    if bounds == [] then []
    else [ParseInt(Slice(s, bounds[0].0, bounds[0].1))] + Fields(s, bounds[1..])
  }

  /** `stringToDate(str)`: `yyyymmddhhmmss` read field by field through
      `Date.UTC`, the month counting from 1. An empty or undefined string
      throws. */
  function StringToDate(str: Option<string>): (r: Result<Instant>)
    ensures r.Err? <==> str.None? || str.value == ""
    ensures r.Err? ==> r.failure == InvalidDateString
  {
    if str.None? || str.value == "" then Err(InvalidDateString)
    else
      var f := Fields(str.value, FieldBounds);
      Ok(DateUtc(f[0], Minus1(f[1]), f[2], f[3], f[4], f[5]))
  }

  /** The i-th field is `parseInt` of the i-th slice. */
  lemma {:induction false} FieldAt(s: string, bounds: seq<(nat, nat)>, i: nat)
    requires i < |bounds|
    ensures Fields(s, bounds)[i] == ParseInt(Slice(s, bounds[i].0, bounds[i].1))
    decreases i
  {
    var head := ParseInt(Slice(s, bounds[0].0, bounds[0].1));
    assert Fields(s, bounds) == [head] + Fields(s, bounds[1..]);
    if i > 0 {
      FieldAt(s, bounds[1..], i - 1);
    }
  }

  /** In fourteen digits `yyyymmddhhmmss`, each field `stringToDate` hands
      to `Date.UTC` is the decimal number its slice spells. */
  lemma StringToDateDigits(s: string, i: nat)
    requires |s| == 14 && forall k :: 0 <= k < 14 ==> IsDecimal(s[k])
    requires i < 6
    ensures FieldBounds[i].0 < FieldBounds[i].1 <= 14
    ensures Fields(s, FieldBounds)[i] == Some(DecimalValue(s[FieldBounds[i].0..FieldBounds[i].1]) as int)
  {
    FieldAt(s, FieldBounds, i);
    FieldDigits(s, FieldBounds[i].0, FieldBounds[i].1);
  }

  /** Fourteen digits `yyyymmddhhmmss` give `Date.UTC` of their six
      decimal fields, the month less one. */
  lemma StringToDateReads(s: string)
    requires |s| == 14 && forall k :: 0 <= k < 14 ==> IsDecimal(s[k])
    ensures StringToDate(Some(s)) ==
            Ok(DateUtc(Some(DecimalValue(s[0..4]) as int), Some(DecimalValue(s[4..6]) as int - 1),
                       Some(DecimalValue(s[6..8]) as int), Some(DecimalValue(s[8..10]) as int),
                       Some(DecimalValue(s[10..12]) as int), Some(DecimalValue(s[12..14]) as int)))
  {
    StringToDateDigits(s, 0);
    StringToDateDigits(s, 1);
    StringToDateDigits(s, 2);
    StringToDateDigits(s, 3);
    StringToDateDigits(s, 4);
    StringToDateDigits(s, 5);
  }

  /** The six decimal fields of fourteen digits, read digit by digit. */
  lemma DecimalFields(s: string, year: int, month: int, day: int, hours: int, minutes: int, seconds: int)
    requires |s| == 14 && forall k :: 0 <= k < 14 ==> IsDecimal(s[k])
    requires year == 1000 * DigitOf(s[0]) + 100 * DigitOf(s[1]) + 10 * DigitOf(s[2]) + DigitOf(s[3])
    requires month == 10 * DigitOf(s[4]) + DigitOf(s[5]) && day == 10 * DigitOf(s[6]) + DigitOf(s[7])
    requires hours == 10 * DigitOf(s[8]) + DigitOf(s[9]) && minutes == 10 * DigitOf(s[10]) + DigitOf(s[11])
    requires seconds == 10 * DigitOf(s[12]) + DigitOf(s[13])
    ensures DecimalValue(s[0..4]) == year && DecimalValue(s[4..6]) == month && DecimalValue(s[6..8]) == day
    ensures DecimalValue(s[8..10]) == hours && DecimalValue(s[10..12]) == minutes && DecimalValue(s[12..14]) == seconds
  {
    FourDigitValue(s[0..4]);
    TwoDigitValue(s[4..6]);
    TwoDigitValue(s[6..8]);
    TwoDigitValue(s[8..10]);
    TwoDigitValue(s[10..12]);
    TwoDigitValue(s[12..14]);
  }

  /** The last second of April 2015. */
  lemma ReadsAprilEnd(s: string)
    requires s == "20150430235959"
    ensures StringToDate(Some(s)) == Ok(Time(1430438399000))
  {
    DecimalFields(s, 2015, 4, 30, 23, 59, 59);
    StringToDateReads(s);
    AprilMayBoundary();
  }

  /** The first second of May 2015. */
  lemma ReadsMayStart(s: string)
    requires s == "20150501000000"
    ensures StringToDate(Some(s)) == Ok(Time(1430438400000))
  {
    DecimalFields(s, 2015, 5, 1, 0, 0, 0);
    StringToDateReads(s);
    AprilMayBoundary();
  }

  /** The second second of May 2015. */
  lemma ReadsMaySecond(s: string)
    requires s == "20150501000001"
    ensures StringToDate(Some(s)) == Ok(Time(1430438401000))
  {
    DecimalFields(s, 2015, 5, 1, 0, 0, 1);
    StringToDateReads(s);
    AprilMayBoundary();
  }

  /** Read one second apart across a change of day and month (and of
      hour and minute), two texts give instants exactly 1000 ms apart. */
  lemma MonthRollover(a: string, b: string)
    requires a == "20150430235959" && b == "20150501000000"
    ensures StringToDate(Some(a)).Ok? && StringToDate(Some(a)).value.Time?
    ensures StringToDate(Some(b)) == Ok(Time(StringToDate(Some(a)).value.ms + 1000))
  {
    ReadsAprilEnd(a);
    ReadsMayStart(b);
  }

  lemma FieldDigits(s: string, from: nat, to: nat)
    requires from < to <= |s| && forall k :: from <= k < to ==> IsDecimal(s[k])
    ensures ParseInt(Slice(s, from, to)) == Some(DecimalValue(s[from..to]) as int)
  {
    assert Slice(s, from, to) == s[from..to];
    DecimalParse(s[from..to]);
  }

  /** The date before the '-' of an event's interval text. */
  function StartOf(e: Link): Result<Instant> {
    StringToDate(At(Split(e.interval, '-'), 0))
  }

  /** The date after the '-' of an event's interval text. */
  function EndOf(e: Link): Result<Instant> {
    StringToDate(At(Split(e.interval, '-'), 1))
  }

  // -------------------------------------------------------- positions

  /** One position row `[time, x, y, z]`: the time through
      `stringToDate` and `toISOString`, the coordinates kept as text. */
  function SampleOfItem(item: seq<string>): Result<Sample> {
    var date := StringToDate(At(item, 0));
    if date.Err? then Err(date.failure)
    else if date.value.InvalidDate? then Err(InvalidTimeValue)
    else Ok(Sample(date.value.ms, Str(At(item, 1)), Str(At(item, 2)), Str(At(item, 3))))
  }

  /** `event.position.map(...)`: the first row that fails fails the map. */
  function Samples(items: seq<seq<string>>): (r: Result<seq<Sample>>)
    ensures r.Ok? ==> |r.value| == |items|
    decreases |items|
  {
    if items == [] then Ok([])
    else
      var pre := Samples(items[..|items| - 1]);
      if pre.Err? then pre
      else
        var s := SampleOfItem(items[|items| - 1]);
        if s.Err? then Err(s.failure) else Ok(pre.value + [s.value])
  }

  /** Each converted row is the conversion of the row at the same place. */
  lemma {:induction false} SamplesAt(items: seq<seq<string>>, k: nat)
    requires Samples(items).Ok? && k < |items|
    ensures SampleOfItem(items[k]) == Ok(Samples(items).value[k])
    decreases |items|
  {
    if k < |items| - 1 {
      SamplesAt(items[..|items| - 1], k);
    }
  }

  /** Once a prefix of the rows fails, the whole map fails the same way. */
  lemma {:induction false} SamplesFail(items: seq<seq<string>>, i: nat)
    requires i <= |items| && Samples(items[..i]).Err?
    ensures Samples(items) == Samples(items[..i])
    decreases |items|
  {
    if i < |items| {
      var pre := items[..|items| - 1];
      assert pre[..i] == items[..i];
      SamplesFail(pre, i);
    } else {
      assert items[..i] == items;
    }
  }

  // ---------------------------------------------------- keyword filter

  /** How the keyword loop reads the keyword list: `for...in` yields the
      index keys "0", "1", ..., `for...of` the keywords themselves. */
  datatype KeywordLoop = ForIn | ForOf

  function KeyAt(loop: KeywordLoop, keywords: seq<string>, k: nat): string
    requires k < |keywords|
  {
    if loop == ForIn then DecimalString(k) else keywords[k]
  }

  /** `event.gnss?.indexOf(key) === -1`: the GNSS id is defined and does
      not hold the k-th key the loop reads. */
  predicate Misses(loop: KeywordLoop, gnss: Option<string>, keywords: seq<string>, k: nat)
    requires k < |keywords|
  {
    gnss.Some? && !Contains(gnss.value, KeyAt(loop, keywords, k))
  }

  /** `outGnss` after the keyword loop: every key the loop reads misses.
      An empty keyword list leaves every event out. */
  predicate Out(loop: KeywordLoop, gnss: Option<string>, keywords: seq<string>) {
    forall k :: 0 <= k < |keywords| ==> Misses(loop, gnss, keywords, k)
  }

  /** As written, the filter looks for the index keys and not for the
      keywords: with the keyword "G", the GPS satellite "G11" is left out
      and the BDS satellite "C20" is kept. */
  lemma ForInFilterMissesKeywords()
    ensures Out(ForIn, Some("G11"), ["G"])
    ensures !Out(ForIn, Some("C20"), ["G"])
    ensures Contains("G11", "G") && !Contains("C20", "G")
  {
    assert DecimalString(0) == "0";
    assert !Contains("G11", "0") by {
      assert "G11"[1..] == "11" && "11"[1..] == "1" && "1"[1..] == "";
      assert "G11"[..1] == "G" && "11"[..1] == "1" && "1"[..1] == "1";
      assert !Contains("", "0");
      assert !Contains("1", "0");
      assert !Contains("11", "0");
    }
    assert Contains("C20", "0") by {
      assert "C20"[1..] == "20" && "20"[1..] == "0" && "0"[..1] == "0";
      assert Contains("0", "0");
      assert Contains("20", "0");
    }
    assert Out(ForIn, Some("G11"), ["G"]) by {
      forall k | 0 <= k < 1
        ensures Misses(ForIn, Some("G11"), ["G"], k)
      {
        assert k == 0;
      }
    }
    assert KeyAt(ForIn, ["G"], 0) == "0";
    assert !Misses(ForIn, Some("C20"), ["G"], 0);
    assert !Contains("C20", "G") by {
      assert "C20"[1..] == "20" && "20"[1..] == "0" && "0"[1..] == "";
      assert "C20"[..1] == "C" && "20"[..1] == "2" && "0"[..1] == "0";
      assert !Contains("", "G");
      assert !Contains("0", "G");
      assert !Contains("20", "G");
    }
  }

  /** Read with `for...of`, the filter keeps exactly the events whose GNSS
      id holds one of the keywords, or is undefined while there is a
      keyword. */
  lemma ForOfFilterKeepsKeywords(gnss: Option<string>, keywords: seq<string>)
    ensures !Out(ForOf, gnss, keywords) <==>
            (|keywords| > 0 && gnss.None?) ||
            (gnss.Some? && exists k :: 0 <= k < |keywords| && Contains(gnss.value, keywords[k]))
  {
    if !Out(ForOf, gnss, keywords) {
      var k :| 0 <= k < |keywords| && !Misses(ForOf, gnss, keywords, k);
      assert KeyAt(ForOf, keywords, k) == keywords[k];
    } else {
      if |keywords| > 0 {
        assert Misses(ForOf, gnss, keywords, 0);
      }
      forall k | 0 <= k < |keywords|
        ensures gnss.Some? && !Contains(gnss.value, keywords[k])
      {
        assert Misses(ForOf, gnss, keywords, k);
      }
    }
  }

  // ---------------------------------------------------------- stitching

  /** `event.gnss + '/' + event.leo`. */
  function Id(e: Link): string {
    Str(e.gnss) + "/" + Str(e.leo)
  }

  /** `checkEvent(before, after)`: the same pair, a different interval
      text, and `after` starting after `before` ends by at most a second.
      An invalid date compares false both ways, so it never separates two
      events. The bare `return`s give `undefined`, read as false. */
  function CheckEvent(before: Link, after: Link): Result<bool> {
    if before.gnss != after.gnss || before.leo != after.leo || before.interval == after.interval then Ok(false)
    else
      var start := EndOf(before);
      if start.Err? then Err(start.failure)
      else
        var end := StartOf(after);
        if end.Err? then Err(end.failure)
        else if start.value.Time? && end.value.Time? && start.value.ms >= end.value.ms then Ok(false)
        else if start.value.Time? && end.value.Time? && end.value.ms - start.value.ms > 1000 then Ok(false)
        else Ok(true)
  }

  /** `checkEvent` holds exactly for two events of the same pair with
      different interval texts whose dates are both readable and either
      invalid or less than a second apart, the later one strictly after. */
  lemma CheckEventIff(before: Link, after: Link)
    ensures CheckEvent(before, after) == Ok(true) <==>
            before.gnss == after.gnss && before.leo == after.leo && before.interval != after.interval &&
            EndOf(before).Ok? && StartOf(after).Ok? &&
            (EndOf(before).value.InvalidDate? || StartOf(after).value.InvalidDate? ||
             0 < StartOf(after).value.ms - EndOf(before).value.ms <= 1000)
  {
  }

  /** An interval text `a-b` whose halves hold no '-' is read as its two
      halves. */
  lemma IntervalHalves(e: Link, a: string, b: string)
    requires '-' !in a && '-' !in b && e.interval == a + "-" + b
    ensures StartOf(e) == StringToDate(Some(a)) && EndOf(e) == StringToDate(Some(b))
  {
    assert e.interval == a + ['-'] + b;
    SplitAtFirst(a, b, '-');
    SplitNone(b, '-');
  }

  /** For two events of one pair with valid dates, `checkEvent` is the
      test that the later starts after the earlier ends, by 1000 ms at
      most. */
  lemma CheckEventAt(before: Link, after: Link, end: int, start: int)
    requires before.gnss == after.gnss && before.leo == after.leo && before.interval != after.interval
    requires EndOf(before) == Ok(Time(end)) && StartOf(after) == Ok(Time(start))
    ensures CheckEvent(before, after) == Ok(0 < start - end <= 1000)
  {
  }

  /** An event whose interval text ends at 2015-04-30T23:59:59Z and the
      next event of its pair, starting at 2015-05-01T00:00:00Z, are joined
      into one run; one starting at 00:00:01 is not. */
  lemma RolloverJoins(before: Link, after: Link, later: Link, e: string, s: string, s': string,
                      b0: string, a1: string)
    requires e == "20150430235959" && s == "20150501000000" && s' == "20150501000001"
    requires '-' !in b0 && '-' !in a1
    requires before.interval == b0 + "-" + e
    requires after.interval == s + "-" + a1 && later.interval == s' + "-" + a1
    requires before.gnss == after.gnss == later.gnss && before.leo == after.leo == later.leo
    requires before.interval != after.interval && before.interval != later.interval
    ensures CheckEvent(before, after) == Ok(true)
    ensures CheckEvent(before, later) == Ok(false)
  {
    IntervalHalves(before, b0, e);
    IntervalHalves(after, s, a1);
    IntervalHalves(later, s', a1);
    ReadsAprilEnd(e);
    ReadsMayStart(s);
    ReadsMaySecond(s');
    CheckEventAt(before, after, 1430438399000, 1430438400000);
    CheckEventAt(before, later, 1430438399000, 1430438401000);
  }

  /** The event part `{ type, interval, position }`. */
  function PartOf(e: Link, position: seq<Sample>): Result<EventPart> {
    var start := StartOf(e);
    var end := EndOf(e);
    if start.Err? then Err(start.failure)
    else if end.Err? then Err(end.failure)
    else if start.value.InvalidDate? || end.value.InvalidDate? then Err(InvalidTimeValue)
    else Ok(EventPart(e.kind, Span(start.value.ms, end.value.ms), position))
  }

  /** The loop state: `lastEvent`, and the pair keys of `obj` with their
      runs. */
  datatype Stitch = Stitch(last: Link, ids: seq<string>, runs: map<string, seq<seq<EventPart>>>)

  /** Adding a part to a pair's runs: appended to the last run when it
      continues it, else a new run. An empty list has no last run and the
      part is dropped. */
  function Place(runs: seq<seq<EventPart>>, part: EventPart, joined: bool): seq<seq<EventPart>> {
    if !joined then runs + [[part]]
    else if |runs| == 0 then runs
    else runs[..|runs| - 1] + [runs[|runs| - 1] + [part]]
  }

  function RunsOf(runs: map<string, seq<seq<EventPart>>>, id: string): seq<seq<EventPart>> {
    if id in runs then runs[id] else []
  }

  /** A kept event: its pair key is added if new, and its part is placed
      after `checkEvent` against `lastEvent`, which it then becomes. */
  function Join(st: Stitch, e: Link, position: seq<Sample>): Result<Stitch> {
    var id := Id(e);
    var ids := if id in st.runs then st.ids else st.ids + [id];
    var part := PartOf(e, position);
    if part.Err? then Err(part.failure)
    else
      var joined := CheckEvent(st.last, e);
      if joined.Err? then Err(joined.failure)
      else Ok(Stitch(e, ids, st.runs[id := Place(RunsOf(st.runs, id), part.value, joined.value)]))
  }

  /** One iteration of the event loop. */
  function Absorb(st: Stitch, e: Link, loop: KeywordLoop, keywords: seq<string>): Result<Stitch> {
    var position := Samples(e.position);
    if position.Err? then Err(position.failure)
    else if Out(loop, e.gnss, keywords) then Ok(st)
    else Join(st, e, position.value)
  }

  /** An event with an undefined GNSS id is left out exactly when there
      is no keyword; an event left out leaves the state, `lastEvent`
      included, as it was. */
  lemma SkippedEvent(st: Stitch, e: Link, loop: KeywordLoop, keywords: seq<string>)
    ensures Out(loop, None, keywords) <==> |keywords| == 0
    ensures Samples(e.position).Ok? && Out(loop, e.gnss, keywords) ==> Absorb(st, e, loop, keywords) == Ok(st)
  {
    if |keywords| > 0 {
      assert !Misses(loop, None, keywords, 0);
    }
  }

  /** The loop state after the events `es`, from `init`. */
  function Stitched(init: Stitch, es: seq<Link>, loop: KeywordLoop, keywords: seq<string>): Result<Stitch>
    decreases |es|
  {
    if es == [] then Ok(init)
    else
      var pre := Stitched(init, es[..|es| - 1], loop, keywords);
      if pre.Err? then pre else Absorb(pre.value, es[|es| - 1], loop, keywords)
  }

  /** Once a prefix of the events fails, the whole loop fails the same
      way. */
  lemma {:induction false} StitchedFail(init: Stitch, es: seq<Link>, loop: KeywordLoop, keywords: seq<string>, i: nat)
    requires i <= |es| && Stitched(init, es[..i], loop, keywords).Err?
    ensures Stitched(init, es, loop, keywords) == Stitched(init, es[..i], loop, keywords)
    decreases |es|
  {
    if i < |es| {
      var pre := es[..|es| - 1];
      assert pre[..i] == es[..i];
      StitchedFail(init, pre, loop, keywords, i);
    } else {
      assert es[..i] == es;
    }
  }

  /** One more event: absorbed into the state the prefix left. */
  lemma StitchedStep(init: Stitch, es: seq<Link>, loop: KeywordLoop, keywords: seq<string>, i: nat)
    requires i < |es| && Stitched(init, es[..i], loop, keywords).Ok?
    ensures Stitched(init, es[..i + 1], loop, keywords) ==
            Absorb(Stitched(init, es[..i], loop, keywords).value, es[i], loop, keywords)
  {
    assert es[..i + 1][..i] == es[..i];
  }

  /** The state before the first event. */
  function Start(first: Link): Stitch {
    Stitch(first, [], map[])
  }

  /** `loadEventLink(val, keywords)`, with the keyword loop read as `loop`;
      the source reads it with `for...in`. */
  function LoadEvents(val: EventLinks, keywords: seq<string>, loop: KeywordLoop): Result<LinksObject> {
    var pieces := Split(val.interval, '-');
    var start := StringToDate(At(pieces, 0));
    var end := StringToDate(At(pieces, 1));
    if start.Err? then Err(start.failure)
    else if end.Err? then Err(end.failure)
    else if start.value.InvalidDate? || end.value.InvalidDate? then Err(InvalidTimeValue)
    else
      var span := Span(start.value.ms, end.value.ms);
      if val.events == [] then Ok(LinksObject(span, [], map[]))
      else
        var s := Stitched(Start(val.events[0]), val.events, loop, keywords);
        if s.Err? then Err(s.failure) else Ok(LinksObject(span, s.value.ids, s.value.runs))
  }

  /** With no events the object holds the window alone; it is read from
      the two halves of the interval text, and fails exactly when one of
      them is missing, empty or not a valid date. */
  lemma EmptyEvents(val: EventLinks, keywords: seq<string>, loop: KeywordLoop)
    requires val.events == []
    ensures var pieces := Split(val.interval, '-');
            var start := StringToDate(At(pieces, 0));
            var end := StringToDate(At(pieces, 1));
            LoadEvents(val, keywords, loop).Ok? <==>
              start.Ok? && end.Ok? && start.value.Time? && end.value.Time?
    ensures LoadEvents(val, keywords, loop).Ok? ==>
            var pieces := Split(val.interval, '-');
            LoadEvents(val, keywords, loop).value ==
              LinksObject(Span(StringToDate(At(pieces, 0)).value.ms, StringToDate(At(pieces, 1)).value.ms), [], map[])
  {
  }

  // ------------------------------------------------------------ methods

  /** The position `map` of one event. */
  method ConvertPositions(items: seq<seq<string>>) returns (r: Result<seq<Sample>>)
    ensures r == Samples(items)
  {
    var position: seq<Sample> := [];
    for i := 0 to |items|
      invariant Samples(items[..i]) == Ok(position)
    {
      assert items[..i + 1][..i] == items[..i];
      var item := items[i];
      var date := StringToDate(At(item, 0));
      if date.Err? || date.value.InvalidDate? {
        SamplesFail(items, i + 1);
        return if date.Err? then Err(date.failure) else Err(InvalidTimeValue);
      }
      position := position + [Sample(date.value.ms, Str(At(item, 1)), Str(At(item, 2)), Str(At(item, 3)))];
    }
    assert items[..|items|] == items;
    r := Ok(position);
  }

  /** The keyword loop as written: `for...in` over the keyword array. */
  method OutGnss(gnss: Option<string>, keywords: seq<string>) returns (outGnss: bool)
    ensures outGnss == Out(ForIn, gnss, keywords)
  {
    outGnss := true;
    for k := 0 to |keywords|
      invariant outGnss <==> forall m :: 0 <= m < k ==> Misses(ForIn, gnss, keywords, m)
    {
      var keyword := DecimalString(k);
      assert keyword == KeyAt(ForIn, keywords, k);
      if gnss.None? || Contains(gnss.value, keyword) {
        outGnss := false;
      }
      assert Misses(ForIn, gnss, keywords, k) <==> gnss.Some? && !Contains(gnss.value, keyword);
    }
  }

  /** The event part literal, with its two `stringToDate` calls. */
  method MakePart(event: Link, position: seq<Sample>) returns (r: Result<EventPart>)
    ensures r == PartOf(event, position)
  {
    var pieces := Split(event.interval, '-');
    var start := StringToDate(At(pieces, 0));
    var end := StringToDate(At(pieces, 1));
    if start.Err? {
      return Err(start.failure);
    }
    if end.Err? {
      return Err(end.failure);
    }
    if start.value.InvalidDate? || end.value.InvalidDate? {
      return Err(InvalidTimeValue);
    }
    r := Ok(EventPart(event.kind, Span(start.value.ms, end.value.ms), position));
  }

  /** `checkEvent(before, after)` with its early returns. */
  method CheckEventStep(before: Link, after: Link) returns (r: Result<bool>)
    ensures r == CheckEvent(before, after)
  {
    var isSame := true;
    if before.gnss != after.gnss || before.leo != after.leo || before.interval == after.interval {
      isSame := false;
      return Ok(isSame);
    }
    var start := StringToDate(At(Split(before.interval, '-'), 1));
    if start.Err? {
      return Err(start.failure);
    }
    var end := StringToDate(At(Split(after.interval, '-'), 0));
    if end.Err? {
      return Err(end.failure);
    }
    if start.value.Time? && end.value.Time? && start.value.ms >= end.value.ms {
      isSame := false;
      return Ok(isSame);
    }
    if start.value.Time? && end.value.Time? && end.value.ms - start.value.ms > 1000 {
      isSame := false;
      return Ok(isSame);
    }
    r := Ok(isSame);
  }

  /** The part of the loop body after the filter. */
  method JoinEvent(st: Stitch, event: Link, position: seq<Sample>) returns (r: Result<Stitch>)
    ensures r == Join(st, event, position)
  {
    var id := Id(event);
    var ids, runs := st.ids, st.runs;
    if id !in runs {
      ids := ids + [id];
      runs := runs[id := []];
    }
    var eventPart := MakePart(event, position);
    if eventPart.Err? {
      return Err(eventPart.failure);
    }
    var joined := CheckEventStep(st.last, event);
    if joined.Err? {
      return Err(joined.failure);
    }
    assert runs[id] == RunsOf(st.runs, id);
    var target := PlacePart(runs[id], eventPart.value, joined.value);
    assert runs[id := target] == st.runs[id := target];
    r := Ok(Stitch(event, ids, runs[id := target]));
  }

  /** The part appended to the pair's last run, or opening a new run. */
  method PlacePart(target: seq<seq<EventPart>>, eventPart: EventPart, joined: bool) returns (r: seq<seq<EventPart>>)
    ensures r == Place(target, eventPart, joined)
  {
    r := target;
    if joined {
      if |r| > 0 {
        r := r[..|r| - 1] + [r[|r| - 1] + [eventPart]];
      }
    } else {
      r := r + [[eventPart]];
    }
  }

  /** The body of the event loop. */
  method AbsorbEvent(st: Stitch, event: Link, keywords: seq<string>) returns (r: Result<Stitch>)
    ensures r == Absorb(st, event, ForIn, keywords)
  {
    var position := ConvertPositions(event.position);
    if position.Err? {
      return Err(position.failure);
    }
    var outGnss := OutGnss(event.gnss, keywords);
    if outGnss {
      return Ok(st);
    }
    r := JoinEvent(st, event, position.value);
  }

  method LoadEventLink(val: EventLinks, keywords: seq<string>) returns (r: Result<LinksObject>)
    ensures r == LoadEvents(val, keywords, ForIn)
  {
    var pieces := Split(val.interval, '-');
    var start := StringToDate(At(pieces, 0));
    var end := StringToDate(At(pieces, 1));
    if start.Err? {
      return Err(start.failure);
    }
    if end.Err? {
      return Err(end.failure);
    }
    if start.value.InvalidDate? || end.value.InvalidDate? {
      return Err(InvalidTimeValue);
    }
    var interval := Span(start.value.ms, end.value.ms);
    if val.events == [] {
      return Ok(LinksObject(interval, [], map[]));
    }
    var st := StitchEvents(val.events, keywords);
    if st.Err? {
      return Err(st.failure);
    }
    r := Ok(LinksObject(interval, st.value.ids, st.value.runs));
  }

  /** The event loop of `loadEventLink`, `lastEvent` starting at the first
      event. */
  method StitchEvents(events: seq<Link>, keywords: seq<string>) returns (r: Result<Stitch>)
    requires |events| > 0
    ensures r == Stitched(Start(events[0]), events, ForIn, keywords)
  {
    var st := Start(events[0]);
    for index := 0 to |events|
      invariant Stitched(Start(events[0]), events[..index], ForIn, keywords) == Ok(st)
    {
      StitchedStep(Start(events[0]), events, ForIn, keywords, index);
      var next := AbsorbEvent(st, events[index], keywords);
      if next.Err? {
        StitchedFail(Start(events[0]), events, ForIn, keywords, index + 1);
        return Err(next.failure);
      }
      st := next.value;
    }
    assert events[..|events|] == events;
    r := Ok(st);
  }
}
