/**
  `eventToCZML` (lib/link.ts): one packet per satellite pair of a loaded
  links object. A packet shows the link between the pair's GNSS and LEO
  satellites on a schedule that alternates hidden and visible intervals,
  chained from the start of the window to its end, one visible interval per
  run; its positions are the pair's samples, four cells each.
 */
module EventCzml {
  import opened JsRuntime
  import opened Dates
  import opened Frame
  import opened Gnss
  import opened Czml
  import opened EventLoad
  import opened EventRuns

  /** `mode: '2D' | '3D'`. */
  datatype Mode = TwoD | ThreeD

  /** `LinkOption`: the colour `#rrggbb`, the line style ("dash" or any
      other text), the view mode and the optional label switch. */
  datatype LinkOption = LinkOption(eventColor: string, eventLink: string, mode: Mode, showLabel: Option<bool>)

  /** `polyline.show`: `false`, or the schedule. */
  datatype LineShow = Hidden | Scheduled(toggles: seq<Toggle>)

  datatype Polyline = Polyline(show: LineShow, width: real, color: Rgba, references: seq<string>)

  datatype Point = Point(pixelSize: int, color: Rgba, show: seq<Toggle>)

  datatype EventLabel = EventLabel(fillColor: Rgba, outlineColor: Rgba, outlineWidth: real,
                                   scale: real, show: seq<Toggle>, text: string)

  /** `position`: interpolation, degree, frame and the flat cell list. */
  datatype Track = Track(interpolation: string, degree: int, frame: string, cartesian: seq<Cell>)

  /** The packet id `pair + '/' + Iso(start) + '/' + Iso(end)`. */
  datatype Tagged = Tagged(pair: string, window: Span)

  datatype EventPacket = EventPacket(id: Tagged, name: string, parent: Span, description: string,
                                     availability: seq<Span>, polyline: Polyline, point: Point,
                                     position: Track, caption: Option<EventLabel>)

  /** The line width: thinner for a dashed link. */
  function Width(opt: LinkOption): real {
    if opt.eventLink == "dash" then 0.3 else 0.8
  }

  /** The colour's alpha: translucent for a dashed link. */
  function Alpha(opt: LinkOption): int {
    if opt.eventLink == "dash" then 160 else 255
  }

  // ----------------------------------------------------------- schedule

  predicate AllNonEmpty(runs: seq<seq<EventPart>>) {
    forall k :: 0 <= k < |runs| ==> |runs[k]| > 0
  }

  /** The start of a run's first part. */
  function Opening(run: seq<EventPart>): int
    requires |run| > 0
  {
    run[0].interval.start
  }

  /** The end of a run's last part. */
  function Closing(run: seq<EventPart>): int
    requires |run| > 0
  {
    run[|run| - 1].interval.end
  }

  /** The loop state of `eventShowAndAvailability`: the toggles, the
      visible intervals and `start`. */
  datatype Tiling = Tiling(show: seq<Toggle>, availability: seq<Span>, start: int)

  /** The loop over the runs, `start` beginning at `from`: a hidden
      interval up to the run's opening, then the run itself as visible.
      An empty run has no first part, and reading its interval throws. */
  function Tile(runs: seq<seq<EventPart>>, from: int): Result<Tiling>
    decreases |runs|
  {
    if runs == [] then Ok(Tiling([], [], from))
    else
      var pre := Tile(runs[..|runs| - 1], from);
      var run := runs[|runs| - 1];
      if pre.Err? then pre
      else if run == [] then Err(UndefinedEventPart)
      else
        var visible := Span(Opening(run), Closing(run));
        Ok(Tiling(pre.value.show + [Toggle(Span(pre.value.start, Opening(run)), false), Toggle(visible, true)],
                  pre.value.availability + [visible], Closing(run)))
  }

  /** `{ show, availability }`. */
  datatype Schedule = Schedule(show: seq<Toggle>, availability: seq<Span>)

  /** `eventShowAndAvailability(eventItem, interval)`: no runs give two
      empty lists; otherwise the tiles and a last hidden interval up to
      the end of the window. */
  function ScheduleOf(runs: seq<seq<EventPart>>, window: Span): Result<Schedule> {
    if runs == [] then Ok(Schedule([], []))
    else
      var t := Tile(runs, window.start);
      if t.Err? then Err(t.failure)
      else Ok(Schedule(t.value.show + [Toggle(Span(t.value.start, window.end), false)], t.value.availability))
  }

  /** The hidden interval before run `k`. */
  function Gap(runs: seq<seq<EventPart>>, from: int, k: nat): Span
    requires k < |runs| && AllNonEmpty(runs)
  {
    Span(if k == 0 then from else Closing(runs[k - 1]), Opening(runs[k]))
  }

  /** The visible interval of run `k`. */
  function Visible(runs: seq<seq<EventPart>>, k: nat): Span
    requires k < |runs| && AllNonEmpty(runs)
  {
    Span(Opening(runs[k]), Closing(runs[k]))
  }

  /** The loop succeeds exactly when no run is empty, and then lays out,
      per run, its gap and its visible interval, and ends at the last
      run's closing. */
  lemma {:induction false} TileClosed(runs: seq<seq<EventPart>>, from: int)
    ensures Tile(runs, from).Ok? <==> AllNonEmpty(runs)
    ensures Tile(runs, from).Ok? ==>
            var t := Tile(runs, from).value;
            |t.show| == 2 * |runs| && |t.availability| == |runs| &&
            t.start == (if runs == [] then from else Closing(runs[|runs| - 1])) &&
            (forall k :: 0 <= k < |runs| ==> t.availability[k] == Visible(runs, k)) &&
            (forall i :: 0 <= i < |t.show| ==>
               t.show[i] == if i % 2 == 0 then Toggle(Gap(runs, from, i / 2), false)
                            else Toggle(Visible(runs, i / 2), true))
    decreases |runs|
  {
    if runs != [] {
      var n := |runs| - 1;
      var pre := runs[..n];
      TileClosed(pre, from);
      assert AllNonEmpty(runs) ==> AllNonEmpty(pre);
      if !AllNonEmpty(pre) {
        var k :| 0 <= k < n && |pre[k]| == 0;
        assert |runs[k]| == 0;
      } else if Tile(runs, from).Ok? {
        var p := Tile(pre, from).value;
        var t := Tile(runs, from).value;
        assert forall k :: 0 <= k < n ==> runs[k] == pre[k];
        forall i | 0 <= i < |t.show|
          ensures t.show[i] == if i % 2 == 0 then Toggle(Gap(runs, from, i / 2), false)
                               else Toggle(Visible(runs, i / 2), true)
        {
          if i < 2 * n {
            assert t.show[i] == p.show[i];
          }
        }
        forall k | 0 <= k < |runs|
          ensures t.availability[k] == Visible(runs, k)
        {
          if k < n {
            assert t.availability[k] == p.availability[k];
          }
        }
      }
    }
  }

  /** Toggle `i` of the schedule: gap and visible interval per run, then
      the hidden rest of the window. */
  function ShowAt(runs: seq<seq<EventPart>>, window: Span, i: nat): Toggle
    requires i <= 2 * |runs| && |runs| > 0 && AllNonEmpty(runs)
  {
    if i == 2 * |runs| then Toggle(Span(Closing(runs[|runs| - 1]), window.end), false)
    else if i % 2 == 0 then Toggle(Gap(runs, window.start, i / 2), false)
    else Toggle(Visible(runs, i / 2), true)
  }

  /** The schedule in closed form. */
  lemma ScheduleClosed(runs: seq<seq<EventPart>>, window: Span)
    requires |runs| > 0 && AllNonEmpty(runs)
    ensures ScheduleOf(runs, window).Ok?
    ensures var s := ScheduleOf(runs, window).value;
            |s.show| == 2 * |runs| + 1 && |s.availability| == |runs| &&
            (forall i :: 0 <= i < |s.show| ==> s.show[i] == ShowAt(runs, window, i)) &&
            (forall k :: 0 <= k < |runs| ==> s.availability[k] == Visible(runs, k))
  {
    TileClosed(runs, window.start);
    var t := Tile(runs, window.start).value;
    var s := ScheduleOf(runs, window).value;
    forall i | 0 <= i < |s.show|
      ensures s.show[i] == ShowAt(runs, window, i)
    {
      if i < 2 * |runs| {
        assert s.show[i] == t.show[i];
      }
    }
  }

  /** With at least one run and none empty, the schedule has 2n+1
      toggles, hidden and visible in turn from hidden, chained end to
      start from the window's start to its end; the visible ones are the
      runs, and the availability lists them in order. */
  lemma ScheduleTiles(runs: seq<seq<EventPart>>, window: Span)
    requires |runs| > 0 && AllNonEmpty(runs)
    ensures ScheduleOf(runs, window).Ok?
    ensures var s := ScheduleOf(runs, window).value;
            |s.show| == 2 * |runs| + 1 && |s.availability| == |runs| &&
            s.show[0].interval.start == window.start && s.show[2 * |runs|].interval.end == window.end
    ensures var s := ScheduleOf(runs, window).value;
            forall i :: 0 <= i < |s.show| ==> (s.show[i].visible <==> i % 2 == 1)
    ensures var s := ScheduleOf(runs, window).value;
            forall i :: 0 <= i < |s.show| - 1 ==> s.show[i].interval.end == s.show[i + 1].interval.start
    ensures var s := ScheduleOf(runs, window).value;
            forall k :: 0 <= k < |runs| ==>
              s.availability[k] == s.show[2 * k + 1].interval == Span(Opening(runs[k]), Closing(runs[k]))
  {
    ScheduleClosed(runs, window);
    var s := ScheduleOf(runs, window).value;
    var n := |runs|;
    forall i | 0 <= i < |s.show| - 1
      ensures s.show[i].interval.end == s.show[i + 1].interval.start
    {
      if i % 2 == 1 && i + 1 < 2 * n {
        assert (i + 1) / 2 == i / 2 + 1;
      }
    }
    forall k | 0 <= k < n
      ensures s.availability[k] == s.show[2 * k + 1].interval
    {
      assert (2 * k + 1) / 2 == k;
    }
  }

  /** No runs give two empty lists; any empty run makes it throw. */
  lemma ScheduleEdges(runs: seq<seq<EventPart>>, window: Span)
    ensures runs == [] ==> ScheduleOf(runs, window) == Ok(Schedule([], []))
    ensures ScheduleOf(runs, window).Ok? <==> AllNonEmpty(runs)
  {
    TileClosed(runs, window.start);
  }

  // ---------------------------------------------------------- positions

  /** The four cells of each sample, sample after sample. */
  function Rows(samples: seq<Sample>): seq<Cell>
    decreases |samples|
  {
    if samples == [] then [] else Rows(samples[..|samples| - 1]) + PrintedRow(samples[|samples| - 1])
  }

  /** The samples of a list of parts, part after part. */
  function SamplesOf(parts: seq<EventPart>): seq<Sample>
    decreases |parts|
  {
    if parts == [] then [] else SamplesOf(parts[..|parts| - 1]) + parts[|parts| - 1].position
  }

  lemma {:induction false} RowsAppend(a: seq<Sample>, b: seq<Sample>)
    ensures Rows(a + b) == Rows(a) + Rows(b)
    decreases |b|
  {
    if b != [] {
      var n := |b| - 1;
      assert (a + b)[..|a + b| - 1] == a + b[..n];
      RowsAppend(a, b[..n]);
    } else {
      assert a + b == a;
    }
  }

  lemma {:induction false} SamplesOfAppend(a: seq<EventPart>, b: seq<EventPart>)
    ensures SamplesOf(a + b) == SamplesOf(a) + SamplesOf(b)
    decreases |b|
  {
    if b != [] {
      var n := |b| - 1;
      assert (a + b)[..|a + b| - 1] == a + b[..n];
      SamplesOfAppend(a, b[..n]);
    } else {
      assert a + b == a;
    }
  }

  /** Four cells per sample: the i-th sample's time and coordinates sit
      at cells 4i to 4i+3. */
  lemma {:induction false} RowsLayout(samples: seq<Sample>)
    ensures |Rows(samples)| == 4 * |samples|
    ensures forall i :: 0 <= i < |samples| ==> Rows(samples)[4 * i..4 * i + 4] == PrintedRow(samples[i])
    decreases |samples|
  {
    if samples != [] {
      var n := |samples| - 1;
      var pre := samples[..n];
      RowsLayout(pre);
      assert Rows(samples) == Rows(pre) + PrintedRow(samples[n]);
      forall i | 0 <= i < |samples|
        ensures Rows(samples)[4 * i..4 * i + 4] == PrintedRow(samples[i])
      {
        if i < n {
          assert Rows(samples)[4 * i..4 * i + 4] == Rows(pre)[4 * i..4 * i + 4];
          assert samples[i] == pre[i];
        }
      }
    }
  }

  // ------------------------------------------------------------ packets

  /** The parts of `id` split on '/': the GNSS text and the LEO text. */
  function GnssText(id: string): string {
    Str(At(Split(id, '/'), 0))
  }

  function LeoText(id: string): string {
    Str(At(Split(id, '/'), 1))
  }

  /** `references`: the GNSS and LEO position references; a non-empty
      `leoID` replaces the LEO one. */
  function References(id: string, leoID: Option<string>): seq<string> {
    if leoID.Some? && leoID.value != "" then [GnssText(id) + "#position", leoID.value + "#position"]
    else [GnssText(id) + "#position", LeoText(id) + "#position"]
  }

  /** The packet of pair `id` with runs `runs`. */
  function PacketOf(window: Span, opt: LinkOption, leoID: Option<string>, id: string,
                    runs: seq<seq<EventPart>>): Result<EventPacket> {
    var schedule := ScheduleOf(runs, window);
    if schedule.Err? then Err(schedule.failure)
    else
      var color := WithAlpha(ColorArray(opt.eventColor), Alpha(opt));
      var show := schedule.value.show;
      Ok(EventPacket(
        Tagged(id, window), id, window, "<p>GNSS:" + GnssText(id) + " LEO:" + LeoText(id),
        schedule.value.availability,
        Polyline(if opt.mode == TwoD then Hidden else Scheduled(show), Width(opt), color, References(id, leoID)),
        Point(8, color, show),
        Track("LAGRANGE", 2, "INERTIAL", Rows(SamplesOf(Flatten(runs)))),
        if opt.showLabel == Some(true) then
          Some(EventLabel(color, Rgba(Some(255), Some(255), Some(255), Alpha(opt)), 0.5, 0.5, show, GnssText(id)))
        else None))
  }

  /** The results of `f` on each key, in order; the first key whose result
      is an error makes the whole list that error. */
  function Collect<T>(f: string -> Result<T>, ids: seq<string>): Result<seq<T>>
    decreases |ids|
  {
    if ids == [] then Ok([])
    else
      var pre := Collect(f, ids[..|ids| - 1]);
      var r := f(ids[|ids| - 1]);
      if pre.Err? then pre
      else if r.Err? then Err(r.failure)
      else Ok(pre.value + [r.value])
  }

  /** The list succeeds exactly when every key's result does, and then
      holds one result per key, in key order. */
  lemma {:induction false} CollectAll<T>(f: string -> Result<T>, ids: seq<string>)
    ensures Collect(f, ids).Ok? <==> forall k :: 0 <= k < |ids| ==> f(ids[k]).Ok?
    ensures Collect(f, ids).Ok? ==>
            |Collect(f, ids).value| == |ids| &&
            forall k :: 0 <= k < |ids| ==> f(ids[k]) == Ok(Collect(f, ids).value[k])
    decreases |ids|
  {
    if ids != [] {
      var n := |ids| - 1;
      var pre := ids[..n];
      CollectAll(f, pre);
      assert forall k :: 0 <= k < n ==> ids[k] == pre[k];
    }
  }

  /** Once a prefix of the keys fails, the whole list fails the same way. */
  lemma {:induction false} CollectFail<T>(f: string -> Result<T>, ids: seq<string>, i: nat)
    requires i <= |ids| && Collect(f, ids[..i]).Err?
    ensures Collect(f, ids) == Collect(f, ids[..i])
    decreases |ids|
  {
    if i < |ids| {
      var pre := ids[..|ids| - 1];
      assert pre[..i] == ids[..i];
      CollectFail(f, pre, i);
    } else {
      assert ids[..i] == ids;
    }
  }

  /** One more key: its result is appended, or its error ends the list. */
  lemma CollectStep<T>(f: string -> Result<T>, ids: seq<string>, k: nat)
    requires k < |ids| && Collect(f, ids[..k]).Ok?
    ensures Collect(f, ids[..k + 1]) ==
            if f(ids[k]).Err? then Err(f(ids[k]).failure) else Ok(Collect(f, ids[..k]).value + [f(ids[k]).value])
  {
    assert ids[..k + 1][..k] == ids[..k];
  }

  /** The packet of one pair key of `data`. */
  function PairOf(data: LinksObject, opt: LinkOption, leoID: Option<string>): string -> Result<EventPacket> {
    id => PacketOf(data.interval, opt, leoID, id, RunsOf(data.runs, id))
  }

  /** `eventToCZML(data, viewProperty, leoID)`: the "interval" key holds a
      string and is skipped; every pair key gives a packet. */
  function EventsToCzml(data: LinksObject, opt: LinkOption, leoID: Option<string>): Result<seq<EventPacket>> {
    Collect(PairOf(data, opt, leoID), data.ids)
  }

  /** One packet per pair key, in key order, each the packet of that pair;
      the conversion succeeds exactly when no pair has an empty run. */
  lemma PacketsFollowIds(data: LinksObject, opt: LinkOption, leoID: Option<string>)
    ensures EventsToCzml(data, opt, leoID).Ok? <==>
            forall k :: 0 <= k < |data.ids| ==> AllNonEmpty(RunsOf(data.runs, data.ids[k]))
    ensures EventsToCzml(data, opt, leoID).Ok? ==>
            |EventsToCzml(data, opt, leoID).value| == |data.ids| &&
            forall k :: 0 <= k < |data.ids| ==>
              PacketOf(data.interval, opt, leoID, data.ids[k], RunsOf(data.runs, data.ids[k])) ==
              Ok(EventsToCzml(data, opt, leoID).value[k])
  {
    var f := PairOf(data, opt, leoID);
    CollectAll(f, data.ids);
    forall k | 0 <= k < |data.ids|
      ensures f(data.ids[k]).Ok? <==> AllNonEmpty(RunsOf(data.runs, data.ids[k]))
    {
      ScheduleEdges(RunsOf(data.runs, data.ids[k]), data.interval);
    }
  }

  /** A packet's fields: its name and id from the pair, the schedule on the
      point, on the line unless the view is flat, and on the label, which
      exists exactly when asked for; the dashed style; the positions of
      all samples of the pair's runs, four cells each. */
  lemma PacketFields(window: Span, opt: LinkOption, leoID: Option<string>, id: string, runs: seq<seq<EventPart>>)
    requires PacketOf(window, opt, leoID, id, runs).Ok?
    ensures var p := PacketOf(window, opt, leoID, id, runs).value;
            var s := ScheduleOf(runs, window).value;
            p.name == id && p.id == Tagged(id, window) && p.parent == window &&
            p.point.show == s.show && p.availability == s.availability &&
            (opt.mode == TwoD <==> p.polyline.show == Hidden) &&
            (opt.mode == ThreeD ==> p.polyline.show == Scheduled(s.show))
    ensures var p := PacketOf(window, opt, leoID, id, runs).value;
            (opt.eventLink == "dash" ==> p.polyline.width == 0.3 && p.polyline.color.a == 160) &&
            (opt.eventLink != "dash" ==> p.polyline.width == 0.8 && p.polyline.color.a == 255) &&
            p.point.color == p.polyline.color && p.point.pixelSize == 8
    ensures var p := PacketOf(window, opt, leoID, id, runs).value;
            (p.caption.Some? <==> opt.showLabel == Some(true)) &&
            (p.caption.Some? ==> p.caption.value.show == p.point.show && p.caption.value.text == GnssText(id))
    ensures var p := PacketOf(window, opt, leoID, id, runs).value;
            var samples := SamplesOf(Flatten(runs));
            |p.position.cartesian| == 4 * |samples| &&
            forall i :: 0 <= i < |samples| ==> p.position.cartesian[4 * i..4 * i + 4] == PrintedRow(samples[i])
  {
    RowsLayout(SamplesOf(Flatten(runs)));
  }

  /** For a key `gnss + '/' + leo` whose parts hold no '/', the
      description and the references name the two satellites, the LEO
      one replaced by a non-empty `leoID`. */
  lemma PairTexts(gnss: string, leo: string, leoID: Option<string>)
    requires '/' !in gnss && '/' !in leo
    ensures GnssText(gnss + "/" + leo) == gnss && LeoText(gnss + "/" + leo) == leo
    ensures References(gnss + "/" + leo, leoID) ==
            [gnss + "#position", (if leoID.Some? && leoID.value != "" then leoID.value else leo) + "#position"]
  {
    SplitAtFirst(gnss, leo, '/');
    SplitNone(gnss, '/');
    SplitNone(leo, '/');
    assert gnss + "/" + leo == gnss + ['/'] + leo;
  }

  // ------------------------------------------------------------ methods

  /** `eventShowAndAvailability`: the loop pushes a hidden and a visible
      toggle per run and moves `start` to the run's end. */
  method EventShowAndAvailability(eventItem: seq<seq<EventPart>>, interval: Span) returns (r: Result<Schedule>)
    ensures r == ScheduleOf(eventItem, interval)
  {
    var show: seq<Toggle> := [];
    var availability: seq<Span> := [];
    if |eventItem| == 0 {
      return Ok(Schedule(show, availability));
    }
    var start := interval.start;
    for index := 0 to |eventItem|
      invariant Tile(eventItem[..index], interval.start) == Ok(Tiling(show, availability, start))
    {
      assert eventItem[..index + 1][..index] == eventItem[..index];
      var eventLength := |eventItem[index]|;
      if eventLength == 0 {
        TileFail(eventItem, interval.start, index + 1);
        return Err(UndefinedEventPart);
      }
      var middle := eventItem[index][0].interval.start;
      var end := eventItem[index][eventLength - 1].interval.end;
      var hideInterval := Span(start, middle);
      var showInterval := Span(middle, end);
      ghost var before := show;
      show := show + [Toggle(hideInterval, false)];
      show := show + [Toggle(showInterval, true)];
      availability := availability + [showInterval];
      start := end;
      assert show == before + [Toggle(hideInterval, false), Toggle(showInterval, true)];
      assert eventItem[..index + 1][index] == eventItem[index];
    }
    assert eventItem[..|eventItem|] == eventItem;
    show := show + [Toggle(Span(start, interval.end), false)];
    r := Ok(Schedule(show, availability));
  }

  /** Once a prefix of the runs throws, the whole loop throws the same
      way. */
  lemma {:induction false} TileFail(runs: seq<seq<EventPart>>, from: int, i: nat)
    requires i <= |runs| && Tile(runs[..i], from).Err?
    ensures Tile(runs, from) == Tile(runs[..i], from)
    decreases |runs|
  {
    if i < |runs| {
      var pre := runs[..|runs| - 1];
      assert pre[..i] == runs[..i];
      TileFail(pre, from, i);
    } else {
      assert runs[..i] == runs;
    }
  }

  /** `positionPart.map(...)`: four pushes per sample. */
  method PushRows(positions: seq<Cell>, positionPart: seq<Sample>) returns (r: seq<Cell>)
    ensures r == positions + Rows(positionPart)
  {
    r := positions;
    for m := 0 to |positionPart|
      invariant r == positions + Rows(positionPart[..m])
    {
      assert positionPart[..m + 1][..m] == positionPart[..m];
      var position := positionPart[m];
      r := r + [IsoTime(position.ms)];
      r := r + [Printed(X, position)];
      r := r + [Printed(Y, position)];
      r := r + [Printed(Z, position)];
    }
    assert positionPart[..|positionPart|] == positionPart;
  }

  /** The parts of one run, in order. */
  method PushParts(positions: seq<Cell>, event: seq<EventPart>) returns (r: seq<Cell>)
    ensures r == positions + Rows(SamplesOf(event))
  {
    r := positions;
    for i := 0 to |event|
      invariant r == positions + Rows(SamplesOf(event[..i]))
    {
      assert event[..i + 1][..i] == event[..i];
      r := PushRows(r, event[i].position);
      RowsAppend(SamplesOf(event[..i]), event[i].position);
    }
    assert event[..|event|] == event;
  }

  /** `eventPointPosition`: the runs in order, the parts of each run in
      order, four cells per sample. */
  method EventPointPosition(eventItem: seq<seq<EventPart>>) returns (positions: seq<Cell>)
    ensures positions == Rows(SamplesOf(Flatten(eventItem)))
  {
    positions := [];
    for index := 0 to |eventItem|
      invariant positions == Rows(SamplesOf(Flatten(eventItem[..index])))
    {
      assert eventItem[..index + 1][..index] == eventItem[..index];
      positions := PushParts(positions, eventItem[index]);
      SamplesOfAppend(Flatten(eventItem[..index]), eventItem[index]);
      RowsAppend(SamplesOf(Flatten(eventItem[..index])), SamplesOf(eventItem[index]));
    }
    assert eventItem[..|eventItem|] == eventItem;
  }

  /** The loop body for one pair key. */
  method PairPacket(data: LinksObject, viewProperty: LinkOption, leoID: Option<string>, index: string)
    returns (r: Result<EventPacket>)
    ensures r == PacketOf(data.interval, viewProperty, leoID, index, RunsOf(data.runs, index))
  {
    var event := RunsOf(data.runs, index);
    var color := ColorArray(viewProperty.eventColor);
    var alpha := 255;
    var width := 0.8;
    var scale := 1.0;
    if viewProperty.eventLink == "dash" {
      width := 0.3;
      alpha := 160;
    }
    var gnss := Str(At(Split(index, '/'), 0));
    var leo := Str(At(Split(index, '/'), 1));
    var references := [gnss + "#position", leo + "#position"];
    if leoID.Some? && leoID.value != "" {
      references := [Str(At(Split(index, '/'), 0)) + "#position", leoID.value + "#position"];
    }
    var position := EventPointPosition(event);
    var showAndAvailability := EventShowAndAvailability(event, data.interval);
    if showAndAvailability.Err? {
      return Err(showAndAvailability.failure);
    }
    var rgba := Rgba(color.r, color.g, color.b, alpha);
    var show := showAndAvailability.value.show;
    var caption := None;
    if viewProperty.showLabel == Some(true) {
      caption := Some(EventLabel(rgba, Rgba(Some(255), Some(255), Some(255), alpha), 0.5, 0.5 * scale, show, gnss));
    }
    r := Ok(EventPacket(
      Tagged(index, data.interval), index, data.interval, "<p>GNSS:" + gnss + " LEO:" + leo,
      showAndAvailability.value.availability,
      Polyline(if viewProperty.mode == TwoD then Hidden else Scheduled(show), width, rgba, references),
      Point(8, rgba, show),
      Track("LAGRANGE", 2, "INERTIAL", position),
      caption));
  }

  /** `eventToCZML`: one packet pushed per pair key. */
  method EventToCzml(data: LinksObject, viewProperty: LinkOption, leoID: Option<string>)
    returns (r: Result<seq<EventPacket>>)
    ensures r == EventsToCzml(data, viewProperty, leoID)
  {
    var obj: seq<EventPacket> := [];
    ghost var f := PairOf(data, viewProperty, leoID);
    for k := 0 to |data.ids|
      invariant Collect(f, data.ids[..k]) == Ok(obj)
    {
      assert data.ids[..k + 1][..k] == data.ids[..k];
      var eventObj := PairPacket(data, viewProperty, leoID, data.ids[k]);
      assert f(data.ids[k]) == eventObj;
      CollectStep(f, data.ids, k);
      if eventObj.Err? {
        CollectFail(f, data.ids, k + 1);
        return Err(eventObj.failure);
      }
      obj := obj + [eventObj.value];
    }
    assert data.ids[..|data.ids|] == data.ids;
    r := Ok(obj);
  }

  // ----------------------------------------------------------- pipeline

  /** Converting what `loadEventLink` returns never throws: there is one
      packet per pair in first-appearance order, its schedule tiles the
      window with the pair's runs, and its positions are the samples of
      the pair's kept events, in event order, four cells each. */
  lemma LoadedToCzml(val: EventLinks, keywords: seq<string>, loop: KeywordLoop, opt: LinkOption, leoID: Option<string>)
    requires LoadEvents(val, keywords, loop).Ok?
    ensures var obj := LoadEvents(val, keywords, loop).value;
            EventsToCzml(obj, opt, leoID).Ok? &&
            |EventsToCzml(obj, opt, leoID).value| == |obj.ids| == |FirstSeen(val.events, loop, keywords)|
    ensures var obj := LoadEvents(val, keywords, loop).value;
            forall k :: 0 <= k < |obj.ids| ==>
              PacketFromEvents(val, keywords, loop, obj, EventsToCzml(obj, opt, leoID).value[k], k)
  {
    LoadedRuns(val, keywords, loop);
    var obj := LoadEvents(val, keywords, loop).value;
    forall k | 0 <= k < |obj.ids|
      ensures AllNonEmpty(RunsOf(obj.runs, obj.ids[k]))
    {
      GoodNonEmpty(RunsOf(obj.runs, obj.ids[k]));
    }
    PacketsFollowIds(obj, opt, leoID);
    var ps := EventsToCzml(obj, opt, leoID).value;
    forall k | 0 <= k < |obj.ids|
      ensures PacketFromEvents(val, keywords, loop, obj, ps[k], k)
    {
      var id := obj.ids[k];
      PacketFields(obj.interval, opt, leoID, id, RunsOf(obj.runs, id));
      ScheduleTiles(RunsOf(obj.runs, id), obj.interval);
    }
  }

  /** Packet `k` of a loaded object: it belongs to the k-th pair first
      seen, its positions are that pair's kept samples, and it has one
      visible interval per run, with at least one. */
  predicate PacketFromEvents(val: EventLinks, keywords: seq<string>, loop: KeywordLoop,
                             obj: LinksObject, p: EventPacket, k: int)
  {
    0 <= k < |FirstSeen(val.events, loop, keywords)| &&
    p.name == FirstSeen(val.events, loop, keywords)[k] &&
    p.position.cartesian == Rows(SamplesOf(PartsFor(val.events, p.name, loop, keywords))) &&
    |p.availability| == |RunsOf(obj.runs, p.name)| > 0 &&
    |p.point.show| == 2 * |RunsOf(obj.runs, p.name)| + 1
  }

  /** Every run of a well-formed entry has a part. */
  lemma GoodNonEmpty(runs: seq<seq<EventPart>>)
    requires Good(runs)
    ensures AllNonEmpty(runs)
  {
    forall j | 0 <= j < |runs|
      ensures |runs[j]| > 0
    {
      assert Contiguous(runs[j]);
    }
  }
}
