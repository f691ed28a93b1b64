/**
  What `loadEventLink` promises about the object it builds: the pair keys
  come in the order the pairs first appear among the kept events and each
  names a non-empty list of runs; every run is contiguous (each part starts
  after the previous one ends, by at most a second); and reading a pair's
  runs one after the other gives back the parts of that pair's kept events,
  in order, none lost and none repeated.
 */
module EventRuns {
  import opened JsRuntime
  import opened Dates
  import opened Frame
  import opened EventLoad

  /** The parts of a list of runs, run after run. */
  function Flatten(runs: seq<seq<EventPart>>): seq<EventPart>
    decreases |runs|
  {
    if runs == [] then [] else Flatten(runs[..|runs| - 1]) + runs[|runs| - 1]
  }

  /** A run: at least one part, each starting after the previous one ends
      and at most a second later. */
  predicate Contiguous(run: seq<EventPart>) {
    |run| > 0 &&
    forall j :: 0 < j < |run| ==> 0 < run[j].interval.start - run[j - 1].interval.end <= 1000
  }

  /** A pair's entry: at least one run, every run contiguous. */
  predicate Good(runs: seq<seq<EventPart>>) {
    |runs| > 0 && forall k :: 0 <= k < |runs| ==> Contiguous(runs[k])
  }

  /** The end of the last part of the last run. */
  function LastEnd(runs: seq<seq<EventPart>>): int
    requires Good(runs)
  {
    var run := runs[|runs| - 1];
    run[|run| - 1].interval.end
  }

  /** An event the filter keeps (its positions convert). */
  predicate Kept(e: Link, loop: KeywordLoop, keywords: seq<string>) {
    Samples(e.position).Ok? && !Out(loop, e.gnss, keywords)
  }

  /** The part an event adds to its own pair: its part when it is kept,
      nothing otherwise. */
  function OwnPart(e: Link, loop: KeywordLoop, keywords: seq<string>): seq<EventPart> {
    if !Kept(e, loop, keywords) then []
    else
      var part := PartOf(e, Samples(e.position).value);
      if part.Err? then [] else [part.value]
  }

  /** The part a single event adds to pair `id`. */
  function Contribution(e: Link, id: string, loop: KeywordLoop, keywords: seq<string>): seq<EventPart> {
    if Id(e) == id then OwnPart(e, loop, keywords) else []
  }

  /** The parts of pair `id` among the events `es`, in event order. */
  function PartsFor(es: seq<Link>, id: string, loop: KeywordLoop, keywords: seq<string>): seq<EventPart>
    decreases |es|
  {
    if es == [] then []
    else PartsFor(es[..|es| - 1], id, loop, keywords) + Contribution(es[|es| - 1], id, loop, keywords)
  }

  /** The pair keys of the kept events, each once, in the order the pairs
      first appear. */
  function FirstSeen(es: seq<Link>, loop: KeywordLoop, keywords: seq<string>): seq<string>
    decreases |es|
  {
    if es == [] then []
    else
      var pre := FirstSeen(es[..|es| - 1], loop, keywords);
      var e := es[|es| - 1];
      if Kept(e, loop, keywords) && Id(e) !in pre then pre + [Id(e)] else pre
  }

  predicate Distinct(ids: seq<string>) {
    forall i, j :: 0 <= i < j < |ids| ==> ids[i] != ids[j]
  }

  // ------------------------------------------------- where runs split

  /** `lastEvent` after the events `es`, from `first`: the last event the
      filter kept, whatever its pair, or `first` when it kept none. */
  function LastKept(first: Link, es: seq<Link>, loop: KeywordLoop, keywords: seq<string>): Link
    decreases |es|
  {
    if es == [] then first
    else if Out(loop, es[|es| - 1].gnss, keywords) then LastKept(first, es[..|es| - 1], loop, keywords)
    else es[|es| - 1]
  }

  /** For each part of pair `id` among the events `es`, in event order,
      whether it opens a run: it does exactly when `checkEvent` does not
      hold between the previous kept event (of any pair) and its own. */
  function OpenFlags(first: Link, es: seq<Link>, id: string, loop: KeywordLoop, keywords: seq<string>): (fs: seq<bool>)
    ensures |fs| == |PartsFor(es, id, loop, keywords)|
    decreases |es|
  {
    if es == [] then []
    else
      var n := |es| - 1;
      OpenFlags(first, es[..n], id, loop, keywords) +
      (if Contribution(es[n], id, loop, keywords) == [] then []
       else [CheckEvent(LastKept(first, es[..n], loop, keywords), es[n]) != Ok(true)])
  }

  /** The flags of one run: its first part opens it, the others continue. */
  function RunFlags(run: seq<EventPart>): (fs: seq<bool>)
    ensures |fs| == |run|
  {
    seq(|run|, j => j == 0)
  }

  /** For each part of a list of runs, read run after run, whether it is
      the first of its run. */
  function Starts(runs: seq<seq<EventPart>>): (fs: seq<bool>)
    ensures |fs| == |Flatten(runs)|
    decreases |runs|
  {
    if runs == [] then [] else Starts(runs[..|runs| - 1]) + RunFlags(runs[|runs| - 1])
  }

  /** The number of `true` flags. */
  function Count(fs: seq<bool>): nat
    decreases |fs|
  {
    if fs == [] then 0 else Count(fs[..|fs| - 1]) + (if fs[|fs| - 1] then 1 else 0)
  }

  /** The loop invariant on the object: distinct pair keys, exactly the
      keys holding runs, each holding a good entry. */
  ghost predicate Wf(s: Stitch) {
    Distinct(s.ids) &&
    (forall id :: id in s.runs <==> id in s.ids) &&
    (forall id :: id in s.runs ==> Good(s.runs[id]))
  }

  /** Once `lastEvent` is a kept event, the last run of its pair ends with
      its part. */
  predicate Placed(s: Stitch, loop: KeywordLoop, keywords: seq<string>) {
    !Out(loop, s.last.gnss, keywords) ==>
      var id := Id(s.last);
      var end := EndOf(s.last);
      id in s.runs && Good(s.runs[id]) && end.Ok? && end.value.Time? &&
      LastEnd(s.runs[id]) == end.value.ms
  }

  // ------------------------------------------------------ helper facts

  /** What a successful `Join` does, spelled out. */
  lemma JoinShape(s: Stitch, e: Link, position: seq<Sample>)
    requires EventLoad.Join(s, e, position).Ok?
    ensures PartOf(e, position).Ok? && CheckEvent(s.last, e).Ok?
    ensures EventLoad.Join(s, e, position).value ==
            Stitch(e, if Id(e) in s.runs then s.ids else s.ids + [Id(e)],
                   s.runs[Id(e) := Place(RunsOf(s.runs, Id(e)), PartOf(e, position).value, CheckEvent(s.last, e).value)])
  {
  }

  /** A part's interval is the event's two readable, valid dates. */
  lemma PartDates(e: Link, position: seq<Sample>)
    requires PartOf(e, position).Ok?
    ensures StartOf(e).Ok? && StartOf(e).value.Time? && EndOf(e).Ok? && EndOf(e).value.Time?
    ensures PartOf(e, position).value.interval == Span(StartOf(e).value.ms, EndOf(e).value.ms)
  {
  }

  /** Placing a part adds it after the parts already there, unless it
      would join a missing run. */
  lemma PlaceAppends(runs: seq<seq<EventPart>>, part: EventPart, joined: bool)
    requires !joined || |runs| > 0
    ensures Flatten(Place(runs, part, joined)) == Flatten(runs) + [part]
  {
    var placed := Place(runs, part, joined);
    if !joined {
      assert placed[..|placed| - 1] == runs;
    } else {
      var n := |runs| - 1;
      assert placed[..n] == runs[..n];
      calc {
        Flatten(placed);
        Flatten(runs[..n]) + (runs[n] + [part]);
        (Flatten(runs[..n]) + runs[n]) + [part];
      }
    }
  }

  /** Placing a part keeps a pair's entry good when a joined part starts
      at most a second after the last run ends; the part ends the entry. */
  lemma PlaceKeepsGood(runs: seq<seq<EventPart>>, part: EventPart, joined: bool)
    requires runs == [] || Good(runs)
    requires joined ==> Good(runs) && 0 < part.interval.start - LastEnd(runs) <= 1000
    ensures Good(Place(runs, part, joined))
    ensures LastEnd(Place(runs, part, joined)) == part.interval.end
  {
    var placed := Place(runs, part, joined);
    if joined {
      var n := |runs| - 1;
      var run := runs[n] + [part];
      assert placed[n] == run;
      assert Contiguous(runs[n]);
      assert Contiguous(run) by {
        forall j | 0 < j < |run|
          ensures 0 < run[j].interval.start - run[j - 1].interval.end <= 1000
        {
          if j < |run| - 1 {
            assert run[j] == runs[n][j] && run[j - 1] == runs[n][j - 1];
          }
        }
      }
      assert forall k :: 0 <= k < n ==> placed[k] == runs[k];
    } else {
      assert placed[|runs|] == [part];
      assert forall k :: 0 <= k < |runs| ==> placed[k] == runs[k];
    }
  }

  /** A good entry holds at least one part. */
  lemma GoodHasParts(runs: seq<seq<EventPart>>)
    requires Good(runs)
    ensures |Flatten(runs)| > 0
  {
    assert Contiguous(runs[|runs| - 1]);
  }

  /** Placing a part adds one flag: it opens a run exactly when it is
      not joined. */
  lemma PlaceStarts(runs: seq<seq<EventPart>>, part: EventPart, joined: bool)
    requires joined ==> Good(runs)
    ensures Starts(Place(runs, part, joined)) == Starts(runs) + [!joined]
  {
    var placed := Place(runs, part, joined);
    if !joined {
      assert placed[..|placed| - 1] == runs;
      assert RunFlags([part]) == [true];
    } else {
      var n := |runs| - 1;
      assert placed[..n] == runs[..n];
      assert Contiguous(runs[n]);
      assert RunFlags(runs[n] + [part]) == RunFlags(runs[n]) + [false];
    }
  }

  /** Non-empty runs have as many opening flags as there are runs. */
  lemma {:induction false} StartsCount(runs: seq<seq<EventPart>>)
    requires forall k :: 0 <= k < |runs| ==> |runs[k]| > 0
    ensures Count(Starts(runs)) == |runs|
    decreases |runs|
  {
    if runs != [] {
      var n := |runs| - 1;
      StartsCount(runs[..n]);
      CountAppend(Starts(runs[..n]), RunFlags(runs[n]));
      RunFlagsCount(runs[n]);
    }
  }

  lemma {:induction false} CountAppend(a: seq<bool>, b: seq<bool>)
    ensures Count(a + b) == Count(a) + Count(b)
    decreases |b|
  {
    if b == [] {
      assert a + b == a;
    } else {
      var n := |b| - 1;
      CountAppend(a, b[..n]);
      assert (a + b)[..|a + b| - 1] == a + b[..n];
    }
  }

  lemma {:induction false} RunFlagsCount(run: seq<EventPart>)
    requires |run| > 0
    ensures Count(RunFlags(run)) == 1
    decreases |run|
  {
    var fs := RunFlags(run);
    if |run| == 1 {
      assert fs == [true];
      assert fs[..0] == [];
    } else {
      var n := |run| - 1;
      RunFlagsCount(run[..n]);
      assert fs[..n] == RunFlags(run[..n]);
    }
  }

  // ------------------------------------------------- the loop invariant

  /** A kept event that `checkEvent` joins to `lastEvent` belongs to the
      same pair, whose last run it continues within a second. */
  lemma JoinedContinues(s: Stitch, e: Link, position: seq<Sample>, loop: KeywordLoop, keywords: seq<string>)
    requires Placed(s, loop, keywords) || s.last == e
    requires !Out(loop, e.gnss, keywords) && PartOf(e, position).Ok? && CheckEvent(s.last, e) == Ok(true)
    ensures Id(s.last) == Id(e) && Id(e) in s.runs && Good(s.runs[Id(e)])
    ensures 0 < PartOf(e, position).value.interval.start - LastEnd(s.runs[Id(e)]) <= 1000
  {
    CheckEventIff(s.last, e);
    PartDates(e, position);
    assert s.last.gnss == e.gnss;
    assert Placed(s, loop, keywords);
  }

  /** `checkEvent` never joins an event to a pair that has no runs yet. */
  lemma JoinedPairHasRuns(s: Stitch, e: Link, position: seq<Sample>, loop: KeywordLoop, keywords: seq<string>)
    requires Placed(s, loop, keywords) || s.last == e
    requires !Out(loop, e.gnss, keywords) && PartOf(e, position).Ok?
    ensures CheckEvent(s.last, e) == Ok(true) ==> Id(e) in s.runs
  {
    if CheckEvent(s.last, e) == Ok(true) {
      JoinedContinues(s, e, position, loop, keywords);
    }
  }

  /** The first kept event of a pair opens the pair's first run with its
      part. */
  lemma NewPairOpensRun(s: Stitch, e: Link, loop: KeywordLoop, keywords: seq<string>)
    requires Placed(s, loop, keywords) || s.last == e
    requires Kept(e, loop, keywords) && EventLoad.Join(s, e, Samples(e.position).value).Ok?
    requires Id(e) !in s.runs
    ensures EventLoad.Join(s, e, Samples(e.position).value).value.runs[Id(e)] ==
            [[PartOf(e, Samples(e.position).value).value]]
  {
    var position := Samples(e.position).value;
    JoinShape(s, e, position);
    JoinedPairHasRuns(s, e, position, loop, keywords);
  }

  /** Giving a pair a good entry, and its key when it is new, keeps the
      invariant. */
  lemma WfUpdate(s: Stitch, id: string, entry: seq<seq<EventPart>>, last: Link)
    requires Wf(s) && Good(entry)
    ensures Wf(Stitch(last, if id in s.runs then s.ids else s.ids + [id], s.runs[id := entry]))
  {
    var ids := if id in s.runs then s.ids else s.ids + [id];
    assert Distinct(ids) by {
      if id !in s.runs {
        assert forall k :: 0 <= k < |s.ids| ==> ids[k] == s.ids[k];
        assert ids[|s.ids|] == id;
      }
    }
  }

  /** A kept event keeps the invariant, becomes the placed `lastEvent`,
      and adds its pair's key when the pair is new. */
  lemma JoinKeeps(s: Stitch, e: Link, position: seq<Sample>, loop: KeywordLoop, keywords: seq<string>)
    requires Wf(s) && (Placed(s, loop, keywords) || s.last == e)
    requires !Out(loop, e.gnss, keywords) && EventLoad.Join(s, e, position).Ok?
    ensures Wf(EventLoad.Join(s, e, position).value)
    ensures Placed(EventLoad.Join(s, e, position).value, loop, keywords)
    ensures EventLoad.Join(s, e, position).value.ids == if Id(e) !in s.ids then s.ids + [Id(e)] else s.ids
  {
    JoinShape(s, e, position);
    PartDates(e, position);
    var part := PartOf(e, position).value;
    var joined := CheckEvent(s.last, e).value;
    var before := RunsOf(s.runs, Id(e));
    if joined {
      JoinedContinues(s, e, position, loop, keywords);
    }
    PlaceKeepsGood(before, part, joined);
    WfUpdate(s, Id(e), Place(before, part, joined), e);
  }

  /** A kept event's own part is the part it builds. */
  lemma KeptOwnPart(e: Link, loop: KeywordLoop, keywords: seq<string>)
    requires Kept(e, loop, keywords) && PartOf(e, Samples(e.position).value).Ok?
    ensures OwnPart(e, loop, keywords) == [PartOf(e, Samples(e.position).value).value]
  {
  }

  /** A kept event adds its part after the parts of its own pair. */
  lemma JoinAddsOwn(s: Stitch, e: Link, loop: KeywordLoop, keywords: seq<string>)
    requires Placed(s, loop, keywords) || s.last == e
    requires Kept(e, loop, keywords) && EventLoad.Join(s, e, Samples(e.position).value).Ok?
    ensures Flatten(RunsOf(EventLoad.Join(s, e, Samples(e.position).value).value.runs, Id(e))) ==
            Flatten(RunsOf(s.runs, Id(e))) + OwnPart(e, loop, keywords)
  {
    var position := Samples(e.position).value;
    JoinShape(s, e, position);
    KeptOwnPart(e, loop, keywords);
    var part := PartOf(e, position).value;
    var joined := CheckEvent(s.last, e).value;
    var before := RunsOf(s.runs, Id(e));
    if joined {
      JoinedContinues(s, e, position, loop, keywords);
    }
    PlaceAppends(before, part, joined);
    assert RunsOf(EventLoad.Join(s, e, position).value.runs, Id(e)) == Place(before, part, joined);
  }

  /** A kept event adds its part to its own pair and leaves every other
      pair as it was. */
  lemma JoinAdds(s: Stitch, e: Link, id: string, loop: KeywordLoop, keywords: seq<string>)
    requires Placed(s, loop, keywords) || s.last == e
    requires Kept(e, loop, keywords) && EventLoad.Join(s, e, Samples(e.position).value).Ok?
    ensures Flatten(RunsOf(EventLoad.Join(s, e, Samples(e.position).value).value.runs, id)) ==
            Flatten(RunsOf(s.runs, id)) + Contribution(e, id, loop, keywords)
  {
    if id == Id(e) {
      JoinAddsOwn(s, e, loop, keywords);
    } else {
      JoinShape(s, e, Samples(e.position).value);
      assert RunsOf(EventLoad.Join(s, e, Samples(e.position).value).value.runs, id) == RunsOf(s.runs, id);
    }
  }

  /** The state after one iteration, and what it adds to each pair. */
  ghost predicate Stepped(s: Stitch, e: Link, t: Stitch, loop: KeywordLoop, keywords: seq<string>) {
    Wf(t) && Placed(t, loop, keywords) &&
    t.ids == (if Kept(e, loop, keywords) && Id(e) !in s.ids then s.ids + [Id(e)] else s.ids) &&
    forall id :: Flatten(RunsOf(t.runs, id)) == Flatten(RunsOf(s.runs, id)) + Contribution(e, id, loop, keywords)
  }

  /** An event the filter leaves out changes nothing and adds nothing. */
  lemma SkipStep(s: Stitch, e: Link, loop: KeywordLoop, keywords: seq<string>)
    requires Wf(s) && (Placed(s, loop, keywords) || s.last == e)
    requires Out(loop, e.gnss, keywords)
    ensures Stepped(s, e, s, loop, keywords)
  {
    assert OwnPart(e, loop, keywords) == [];
    forall id
      ensures Flatten(RunsOf(s.runs, id)) == Flatten(RunsOf(s.runs, id)) + Contribution(e, id, loop, keywords)
    {
    }
  }

  /** A kept event keeps the invariant and adds its part to its pair. */
  lemma KeepStep(s: Stitch, e: Link, loop: KeywordLoop, keywords: seq<string>)
    requires Wf(s) && (Placed(s, loop, keywords) || s.last == e)
    requires Kept(e, loop, keywords)
    requires EventLoad.Join(s, e, Samples(e.position).value).Ok?
    ensures Stepped(s, e, EventLoad.Join(s, e, Samples(e.position).value).value, loop, keywords)
  {
    JoinKeeps(s, e, Samples(e.position).value, loop, keywords);
    forall id
      ensures Flatten(RunsOf(EventLoad.Join(s, e, Samples(e.position).value).value.runs, id)) ==
              Flatten(RunsOf(s.runs, id)) + Contribution(e, id, loop, keywords)
    {
      JoinAdds(s, e, id, loop, keywords);
    }
  }

  /** One iteration keeps the invariant and adds the event's contribution
      to its pair. `lastEvent` is either kept and placed, or the event
      itself (the first iteration). */
  lemma AbsorbStep(s: Stitch, e: Link, loop: KeywordLoop, keywords: seq<string>)
    requires Wf(s) && (Placed(s, loop, keywords) || s.last == e)
    requires Absorb(s, e, loop, keywords).Ok?
    ensures Stepped(s, e, Absorb(s, e, loop, keywords).value, loop, keywords)
  {
    if Out(loop, e.gnss, keywords) {
      SkipStep(s, e, loop, keywords);
    } else {
      KeepStep(s, e, loop, keywords);
    }
  }

  /** After the events `es`, started from the first of them, the state
      satisfies the invariant, its keys are the pairs in first-appearance
      order and each pair's runs hold exactly its parts. */
  lemma {:induction false} StitchedInvariant(first: Link, es: seq<Link>, loop: KeywordLoop, keywords: seq<string>)
    requires |es| > 0 ==> es[0] == first
    requires Stitched(Start(first), es, loop, keywords).Ok?
    ensures Wf(Stitched(Start(first), es, loop, keywords).value)
    ensures |es| > 0 ==> Placed(Stitched(Start(first), es, loop, keywords).value, loop, keywords)
    ensures Stitched(Start(first), es, loop, keywords).value.ids == FirstSeen(es, loop, keywords)
    ensures forall id :: Flatten(RunsOf(Stitched(Start(first), es, loop, keywords).value.runs, id)) ==
                         PartsFor(es, id, loop, keywords)
    decreases |es|
  {
    if es == [] {
      return;
    }
    var n := |es| - 1;
    var pre := es[..n];
    StitchedInvariant(first, pre, loop, keywords);
    var s := Stitched(Start(first), pre, loop, keywords).value;
    if n == 0 {
      assert s == Start(first);
    }
    AbsorbStep(s, es[n], loop, keywords);
  }

  // -------------------------------------------------------- the result

  /** A successful load: the keys are the kept pairs in the order they
      first appear, each once; a key holds runs exactly when its pair has
      parts; every run is contiguous; and a pair's runs, read in order,
      are the parts of its kept events in event order. */
  lemma LoadedRuns(val: EventLinks, keywords: seq<string>, loop: KeywordLoop)
    requires LoadEvents(val, keywords, loop).Ok?
    ensures var obj := LoadEvents(val, keywords, loop).value;
            obj.ids == FirstSeen(val.events, loop, keywords) && Distinct(obj.ids) &&
            (forall id :: id in obj.runs <==> id in obj.ids)
    ensures var obj := LoadEvents(val, keywords, loop).value;
            forall id :: id in obj.runs ==> Good(obj.runs[id])
    ensures var obj := LoadEvents(val, keywords, loop).value;
            forall id :: Flatten(RunsOf(obj.runs, id)) == PartsFor(val.events, id, loop, keywords)
    ensures var obj := LoadEvents(val, keywords, loop).value;
            forall id :: id in obj.runs <==> |PartsFor(val.events, id, loop, keywords)| > 0
  {
    var obj := LoadEvents(val, keywords, loop).value;
    if val.events != [] {
      StitchedInvariant(val.events[0], val.events, loop, keywords);
    }
    forall id
      ensures id in obj.runs <==> |PartsFor(val.events, id, loop, keywords)| > 0
    {
      if id in obj.runs {
        GoodHasParts(obj.runs[id]);
      }
    }
  }

  /** One iteration moves `lastEvent` to the event when the filter keeps
      it, and gives each pair one more flag per part it adds: opening a
      run exactly when `checkEvent` against the old `lastEvent` fails. */
  lemma AbsorbSplits(s: Stitch, e: Link, id: string, loop: KeywordLoop, keywords: seq<string>)
    requires Wf(s) && (Placed(s, loop, keywords) || s.last == e)
    requires Absorb(s, e, loop, keywords).Ok?
    ensures Absorb(s, e, loop, keywords).value.last == if Out(loop, e.gnss, keywords) then s.last else e
    ensures Starts(RunsOf(Absorb(s, e, loop, keywords).value.runs, id)) ==
            Starts(RunsOf(s.runs, id)) +
            (if Contribution(e, id, loop, keywords) == [] then [] else [CheckEvent(s.last, e) != Ok(true)])
  {
    if Out(loop, e.gnss, keywords) {
      assert Absorb(s, e, loop, keywords) == Ok(s) && Contribution(e, id, loop, keywords) == [];
    } else {
      if id == Id(e) {
        AbsorbSplitsOwn(s, e, loop, keywords);
      } else {
        AbsorbOther(s, e, id, loop, keywords);
        assert Contribution(e, id, loop, keywords) == [];
      }
    }
  }

  /** A kept event leaves the runs of every other pair as they were. */
  lemma AbsorbOther(s: Stitch, e: Link, id: string, loop: KeywordLoop, keywords: seq<string>)
    requires !Out(loop, e.gnss, keywords) && Absorb(s, e, loop, keywords).Ok? && id != Id(e)
    ensures Absorb(s, e, loop, keywords).value.last == e
    ensures RunsOf(Absorb(s, e, loop, keywords).value.runs, id) == RunsOf(s.runs, id)
  {
    JoinShape(s, e, Samples(e.position).value);
  }

  /** `AbsorbSplits` for the pair of a kept event. */
  lemma AbsorbSplitsOwn(s: Stitch, e: Link, loop: KeywordLoop, keywords: seq<string>)
    requires Wf(s) && (Placed(s, loop, keywords) || s.last == e)
    requires !Out(loop, e.gnss, keywords) && Absorb(s, e, loop, keywords).Ok?
    ensures Absorb(s, e, loop, keywords).value.last == e && Contribution(e, Id(e), loop, keywords) != []
    ensures Starts(RunsOf(Absorb(s, e, loop, keywords).value.runs, Id(e))) ==
            Starts(RunsOf(s.runs, Id(e))) + [CheckEvent(s.last, e) != Ok(true)]
  {
    var position := Samples(e.position).value;
    JoinShape(s, e, position);
    KeptOwnPart(e, loop, keywords);
    var joined := CheckEvent(s.last, e).value;
    if joined {
      JoinedContinues(s, e, position, loop, keywords);
    }
    PlaceStarts(RunsOf(s.runs, Id(e)), PartOf(e, position).value, joined);
  }

  /** After the events `es`, started from the first of them, `lastEvent`
      is the last kept event and each pair's runs start exactly at the
      parts `OpenFlags` marks. */
  lemma {:induction false} StitchedSplits(first: Link, es: seq<Link>, loop: KeywordLoop, keywords: seq<string>)
    requires |es| > 0 ==> es[0] == first
    requires Stitched(Start(first), es, loop, keywords).Ok?
    ensures Stitched(Start(first), es, loop, keywords).value.last == LastKept(first, es, loop, keywords)
    ensures forall id :: Starts(RunsOf(Stitched(Start(first), es, loop, keywords).value.runs, id)) ==
                         OpenFlags(first, es, id, loop, keywords)
    decreases |es|
  {
    if es == [] {
      return;
    }
    var n := |es| - 1;
    var pre := es[..n];
    StitchedSplits(first, pre, loop, keywords);
    StitchedInvariant(first, pre, loop, keywords);
    var s := Stitched(Start(first), pre, loop, keywords).value;
    if n == 0 {
      assert s == Start(first);
    }
    forall id
      ensures Starts(RunsOf(Stitched(Start(first), es, loop, keywords).value.runs, id)) ==
              OpenFlags(first, es, id, loop, keywords)
    {
      AbsorbSplits(s, es[n], id, loop, keywords);
    }
    AbsorbSplits(s, es[n], Id(es[n]), loop, keywords);
  }

  /** The loaded runs are those of the loop started from the first event. */
  lemma LoadedState(val: EventLinks, keywords: seq<string>, loop: KeywordLoop)
    requires LoadEvents(val, keywords, loop).Ok? && val.events != []
    ensures Stitched(Start(val.events[0]), val.events, loop, keywords).Ok?
    ensures LoadEvents(val, keywords, loop).value.runs == Stitched(Start(val.events[0]), val.events, loop, keywords).value.runs
  {
  }

  /** Where a loaded pair's runs split: reading its runs in order, a part
      opens a run exactly when `checkEvent` fails between the previous
      kept event, of whatever pair (`events[0]` before any), and its own
      event; so the pair has as many runs as such parts. */
  lemma LoadedSplits(val: EventLinks, keywords: seq<string>, loop: KeywordLoop)
    requires LoadEvents(val, keywords, loop).Ok? && val.events != []
    ensures var obj := LoadEvents(val, keywords, loop).value;
            forall id :: Starts(RunsOf(obj.runs, id)) == OpenFlags(val.events[0], val.events, id, loop, keywords)
    ensures var obj := LoadEvents(val, keywords, loop).value;
            forall id :: |RunsOf(obj.runs, id)| == Count(OpenFlags(val.events[0], val.events, id, loop, keywords))
  {
    LoadedState(val, keywords, loop);
    var runs := Stitched(Start(val.events[0]), val.events, loop, keywords).value.runs;
    StitchedSplits(val.events[0], val.events, loop, keywords);
    StitchedInvariant(val.events[0], val.events, loop, keywords);
    forall id
      ensures |RunsOf(runs, id)| == Count(OpenFlags(val.events[0], val.events, id, loop, keywords))
    {
      if id in runs {
        assert Good(runs[id]);
        StartsCount(runs[id]);
      }
    }
  }

  /** A kept event that `checkEvent` does not join to `lastEvent` opens
      a new run of its pair. */
  lemma OpensRun(s: Stitch, e: Link, loop: KeywordLoop, keywords: seq<string>)
    requires !Out(loop, e.gnss, keywords) && Absorb(s, e, loop, keywords).Ok? && CheckEvent(s.last, e) == Ok(false)
    ensures var t := Absorb(s, e, loop, keywords).value;
            t.last == e && |OwnPart(e, loop, keywords)| == 1 &&
            RunsOf(t.runs, Id(e)) == RunsOf(s.runs, Id(e)) + [OwnPart(e, loop, keywords)]
  {
    JoinShape(s, e, Samples(e.position).value);
    KeptOwnPart(e, loop, keywords);
  }

  /** A kept event that `checkEvent` joins to `lastEvent` extends the
      last run of its pair. */
  lemma ContinuesRun(s: Stitch, e: Link, loop: KeywordLoop, keywords: seq<string>)
    requires !Out(loop, e.gnss, keywords) && Absorb(s, e, loop, keywords).Ok? && CheckEvent(s.last, e) == Ok(true)
    requires |RunsOf(s.runs, Id(e))| > 0
    ensures var t := Absorb(s, e, loop, keywords).value;
            var before := RunsOf(s.runs, Id(e));
            t.last == e &&
            RunsOf(t.runs, Id(e)) == before[..|before| - 1] + [before[|before| - 1] + OwnPart(e, loop, keywords)]
  {
    JoinShape(s, e, Samples(e.position).value);
    KeptOwnPart(e, loop, keywords);
  }

  /** `checkEvent` never joins an event to itself, nor events of two
      different pairs. */
  lemma NoJoin(x: Link, y: Link)
    requires x == y || Id(x) != Id(y)
    ensures CheckEvent(x, y) == Ok(false)
  {
  }

  /** The states after each prefix of a successful loop are successful,
      each one the step from the one before. */
  lemma PrefixSteps(init: Stitch, es: seq<Link>, loop: KeywordLoop, keywords: seq<string>, i: nat)
    requires i < |es| && Stitched(init, es, loop, keywords).Ok?
    ensures Stitched(init, es[..i], loop, keywords).Ok?
    ensures Stitched(init, es[..i + 1], loop, keywords) ==
            Absorb(Stitched(init, es[..i], loop, keywords).value, es[i], loop, keywords)
  {
    if Stitched(init, es[..i], loop, keywords).Err? {
      StitchedFail(init, es, loop, keywords, i);
    }
    StitchedStep(init, es, loop, keywords, i);
  }

  /** Two kept events of different pairs: the first has opened its
      pair's one run, and `lastEvent` is the second. */
  lemma StitchedOtherPair(es: seq<Link>, loop: KeywordLoop, keywords: seq<string>)
    requires |es| == 2 && Stitched(Start(es[0]), es, loop, keywords).Ok?
    requires !Out(loop, es[0].gnss, keywords) && !Out(loop, es[1].gnss, keywords) && Id(es[1]) != Id(es[0])
    ensures var st := Stitched(Start(es[0]), es, loop, keywords).value;
            st.last == es[1] && RunsOf(st.runs, Id(es[0])) == [OwnPart(es[0], loop, keywords)]
  {
    var init := Start(es[0]);
    PrefixSteps(init, es, loop, keywords, 0);
    PrefixSteps(init, es, loop, keywords, 1);
    assert es[..0] == [] && es[..2] == es;
    var s1 := Stitched(init, es[..1], loop, keywords).value;
    NoJoin(es[0], es[0]);
    OpensRun(init, es[0], loop, keywords);
    AbsorbOther(s1, es[1], Id(es[0]), loop, keywords);
  }

  /** Three kept events, the middle one of another pair: the outer two
      each open a run of their pair. */
  lemma StitchedInterleaved(es: seq<Link>, loop: KeywordLoop, keywords: seq<string>)
    requires |es| == 3 && Stitched(Start(es[0]), es, loop, keywords).Ok?
    requires !Out(loop, es[0].gnss, keywords) && !Out(loop, es[1].gnss, keywords) && !Out(loop, es[2].gnss, keywords)
    requires Id(es[2]) == Id(es[0]) && Id(es[1]) != Id(es[0])
    ensures RunsOf(Stitched(Start(es[0]), es, loop, keywords).value.runs, Id(es[0])) ==
            [OwnPart(es[0], loop, keywords), OwnPart(es[2], loop, keywords)]
  {
    var pre := es[..2];
    PrefixSteps(Start(es[0]), es, loop, keywords, 2);
    assert pre[0] == es[0] && pre[1] == es[1] && es[..3] == es;
    StitchedOtherPair(pre, loop, keywords);
    var st := Stitched(Start(es[0]), pre, loop, keywords).value;
    assert Stitched(Start(es[0]), es, loop, keywords) == Absorb(st, es[2], loop, keywords);
    NoJoin(es[1], es[2]);
    OpensRun(st, es[2], loop, keywords);
  }

  /** Two kept events that `checkEvent` joins share one run. */
  lemma StitchedAdjacent(es: seq<Link>, loop: KeywordLoop, keywords: seq<string>)
    requires |es| == 2 && Stitched(Start(es[0]), es, loop, keywords).Ok?
    requires !Out(loop, es[0].gnss, keywords) && !Out(loop, es[1].gnss, keywords)
    requires CheckEvent(es[0], es[1]) == Ok(true)
    ensures RunsOf(Stitched(Start(es[0]), es, loop, keywords).value.runs, Id(es[0])) ==
            [OwnPart(es[0], loop, keywords) + OwnPart(es[1], loop, keywords)]
  {
    var init := Start(es[0]);
    PrefixSteps(init, es, loop, keywords, 0);
    PrefixSteps(init, es, loop, keywords, 1);
    assert es[..0] == [] && es[..2] == es;
    var s1 := Stitched(init, es[..1], loop, keywords).value;
    NoJoin(es[0], es[0]);
    OpensRun(init, es[0], loop, keywords);
    CheckEventIff(es[0], es[1]);
    assert Id(es[1]) == Id(es[0]);
    ContinuesRun(s1, es[1], loop, keywords);
  }

  /** `lastEvent` is global: a kept event of another pair between two
      events of one pair splits that pair's run, even when `checkEvent`
      would join the two (see `AdjacentJoins`). */
  lemma InterleavedSplits(val: EventLinks, keywords: seq<string>, loop: KeywordLoop, a1: Link, b: Link, a2: Link)
    requires val.events == [a1, b, a2] && LoadEvents(val, keywords, loop).Ok?
    requires !Out(loop, a1.gnss, keywords) && !Out(loop, b.gnss, keywords) && !Out(loop, a2.gnss, keywords)
    requires Id(a2) == Id(a1) && Id(b) != Id(a1)
    ensures var runs := LoadEvents(val, keywords, loop).value.runs;
            Id(a1) in runs && runs[Id(a1)] == [OwnPart(a1, loop, keywords), OwnPart(a2, loop, keywords)]
  {
    var es := val.events;
    assert es[0] == a1 && es[1] == b && es[2] == a2;
    LoadedState(val, keywords, loop);
    StitchedInterleaved(es, loop, keywords);
  }

  /** Two events of one pair with nothing between them, the second
      starting within a second of the first's end, share one run. */
  lemma AdjacentJoins(val: EventLinks, keywords: seq<string>, loop: KeywordLoop, a1: Link, a2: Link)
    requires val.events == [a1, a2] && LoadEvents(val, keywords, loop).Ok?
    requires !Out(loop, a1.gnss, keywords) && !Out(loop, a2.gnss, keywords)
    requires CheckEvent(a1, a2) == Ok(true)
    ensures var runs := LoadEvents(val, keywords, loop).value.runs;
            Id(a1) in runs && runs[Id(a1)] == [OwnPart(a1, loop, keywords) + OwnPart(a2, loop, keywords)]
  {
    LoadedState(val, keywords, loop);
    StitchedAdjacent(val.events, loop, keywords);
  }
}
