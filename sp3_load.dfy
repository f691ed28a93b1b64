/**
  `loadSp3` (lib/sp3.ts): reads the text of an SP3 orbit file line by line
  and gathers, per satellite, a flat series of `(time, x, y, z)` groups,
  plus the covered interval.

  The parse is first given as a function, `ParseSp3`. It is a fold over the
  lines in the order the source visits them. The method `LoadSp3` is the
  source's two while loops, proved to compute `ParseSp3`. The lemmas below
  state what the fold promises: where the header scan stops, which line is
  never read, what each satellite's series holds, and what the interval is.
 */
module Sp3Load {
  import opened JsRuntime
  import opened Dates
  import opened Frame

  /** A value of the parsed object: a satellite's flat series, or the
      `interval` text. */
  datatype Entry = Series(cells: seq<Cell>) | Covered(span: Span)

  /** The object `loadSp3` returns: its keys in insertion order and their
      values. */
  datatype Sp3Object = Sp3Object(keys: seq<string>, vals: map<string, Entry>)

  /** The keys are distinct and are exactly the object's properties, and
      every satellite series is a non-empty list of whole groups of four. */
  ghost predicate Wf(o: Sp3Object) {
    && (forall a, b :: 0 <= a < b < |o.keys| ==> o.keys[a] != o.keys[b])
    && (forall k :: k in o.vals <==> k in o.keys)
    && (forall k :: k in o.vals && o.vals[k].Series? ==>
          |o.vals[k].cells| > 0 && |o.vals[k].cells| % 4 == 0)
  }

  /** The object while the satellite lines are read: no `interval` yet. */
  datatype Acc = Acc(keys: seq<string>, series: map<string, seq<Cell>>)

  ghost predicate AccWf(acc: Acc) {
    && (forall a, b :: 0 <= a < b < |acc.keys| ==> acc.keys[a] != acc.keys[b])
    && (forall k :: k in acc.series <==> k in acc.keys)
    && (forall k :: k in acc.series ==> |acc.series[k]| > 0 && |acc.series[k]| % 4 == 0)
  }

  /** The keyword, `'P'` when none or the empty string is given. */
  function Keyword(keyword: Option<string>): (kw: string)
    ensures |kw| > 0
    ensures keyword.Some? && keyword.value != "" ==> kw == keyword.value
  {
    if keyword.None? || keyword.value == "" then "P" else keyword.value
  }

  /** `value[i][0] === '*'`. */
  predicate StartsWithStar(line: string) {
    |line| > 0 && line[0] == '*'
  }

  /** The instant of an epoch line: `Date.UTC` of tokens 1 to 5 (year,
      month counted from 1, day, hour, minute), seconds fixed at 0. */
  function EpochOf(ts: seq<string>): Instant {
    DateUtc(ParseInt(Str(At(ts, 1))), Minus1(ParseInt(Str(At(ts, 2)))), ParseInt(Str(At(ts, 3))),
            ParseInt(Str(At(ts, 4))), ParseInt(Str(At(ts, 5))), Some(0))
  }

  /** The header scan from line `i`: stops at the first line that contains
      `EOF` or starts with `*`, or at line 101. Reading a line past the end
      is a TypeError. */
  function HeaderFrom(lines: seq<string>, i: nat): (r: Result<nat>)
    requires i <= 101
    ensures r.Ok? ==> i <= r.value <= 101 && r.value < |lines|
    ensures r.Err? ==> r.failure == UndefinedLine
    decreases 101 - i
  {
    if i >= |lines| then Err(UndefinedLine)
    else if Contains(lines[i], "EOF") || i > 100 || StartsWithStar(lines[i]) then Ok(i)
    else HeaderFrom(lines, i + 1)
  }

  /** A line that ends the header scan. */
  predicate HeaderStop(lines: seq<string>, i: nat)
    requires i < |lines|
  {
    Contains(lines[i], "EOF") || StartsWithStar(lines[i])
  }

  /** The header line is the first line that contains `EOF` or starts with
      `*`, unless 101 lines pass without one, when it is line 101; if the
      text ends first, the scan reads past it. */
  lemma {:induction false} HeaderLine(lines: seq<string>, i: nat)
    requires i <= 101
    ensures var r := HeaderFrom(lines, i);
            && (r.Ok? ==> HeaderStop(lines, r.value) || r.value == 101)
            && (r.Ok? ==> forall j :: i <= j < r.value ==> !HeaderStop(lines, j))
            && (r.Err? ==> |lines| <= 101 && forall j :: i <= j < |lines| ==> !HeaderStop(lines, j))
    decreases 101 - i
  {
    if i < |lines| && !HeaderStop(lines, i) && i <= 100 {
      HeaderLine(lines, i + 1);
    }
  }

  /** How the satellite loop treats a line, by its first token. */
  datatype LineKind =
    | EpochLine(ts: seq<string>)                   // first token is `*`
    | EndLine                                      // first token contains `EOF`
    | VelocityLine                                 // first token contains `V`
    | PositionLine(name: string, ts: seq<string>)  // first token contains the keyword
    | OtherLine

  function Classify(line: string, kw: string): LineKind {
    var ts := Tokens(line);
    if ts[0] == "*" then EpochLine(ts)
    else if Contains(ts[0], "EOF") then EndLine
    else if Contains(ts[0], "V") then VelocityLine
    else if Contains(ts[0], kw) then PositionLine(Slice(ts[0], 1, |ts[0]|), ts)
    else OtherLine
  }

  /** The sample of a position line read at instant `ms`: tokens 1 to 3. */
  function SampleOf(ms: int, ts: seq<string>): Sample {
    Sample(ms, Str(At(ts, 1)), Str(At(ts, 2)), Str(At(ts, 3)))
  }

  /** The properties every plain object `{}` inherits from
      `Object.prototype`; reading one of them is never `undefined`. */
  const ObjectMembers: set<string> :=
    {"constructor", "hasOwnProperty", "isPrototypeOf", "propertyIsEnumerable", "toString",
     "toLocaleString", "valueOf", "__proto__", "__defineGetter__", "__defineSetter__",
     "__lookupGetter__", "__lookupSetter__"}

  /** `obj[name] !== undefined` while the satellite lines are read: an own
      key or an inherited member. */
  predicate Defined(acc: Acc, name: string) {
    name in acc.series || name in ObjectMembers
  }

  /** Append a group to a satellite's series, creating the key if new. */
  function Put(acc: Acc, name: string, g: seq<Cell>): Acc {
    if name in acc.series then Acc(acc.keys, acc.series[name := acc.series[name] + g])
    else Acc(acc.keys + [name], acc.series[name := g])
  }

  /** The returned object when no `interval` was set. */
  function Finish(acc: Acc): Sp3Object {
    Sp3Object(acc.keys, map k | k in acc.series :: Series(acc.series[k]))
  }

  /** `obj.interval = span`: a new key goes last, an existing one keeps its
      place. */
  function Close(acc: Acc, span: Span): Sp3Object {
    Sp3Object(if "interval" in acc.series then acc.keys else acc.keys + ["interval"],
              Finish(acc).vals["interval" := Covered(span)])
  }

  /** The classification of every line of the text. */
  function Kinds(lines: seq<string>, kw: string): (ks: seq<LineKind>)
    ensures |ks| == |lines|
  {
    seq(|lines|, k requires 0 <= k < |lines| => Classify(lines[k], kw))
  }

  /** What reading one line does: go on with a new epoch and object, or
      stop with a result. */
  datatype Outcome = Next(date: Instant, acc: Acc) | Done(r: Result<Sp3Object>)

  function Step(kind: LineKind, start: Instant, date: Instant, acc: Acc): Outcome {
    match kind
    case EpochLine(ts) => Next(EpochOf(ts), acc)
    case EndLine =>
      Done(if start.Time? && date.Time? then Ok(Close(acc, Span(start.ms, date.ms))) else Err(InvalidTimeValue))
    case VelocityLine => Next(date, acc)
    case PositionLine(name, ts) =>
      if !date.Time? then Done(Err(InvalidTimeValue))
      else if Defined(acc, name) && name !in acc.series then Done(Err(PushOnInherited))
      else Next(date, Put(acc, name, ScaledGroup(SampleOf(date.ms, ts))))
    case OtherLine => Next(date, acc)
  }

  /** The satellite loop over the classified lines, from the point where
      line `j` is the next to read (the loop index is `j - 1`); `date` is
      the current epoch. Reading past the last line is a TypeError, unless
      the loop never runs. */
  function Walk(ks: seq<LineKind>, j: nat, start: Instant, date: Instant, acc: Acc): Result<Sp3Object>
    decreases |ks| + 1 - j
  {
    if j > |ks| then Ok(Finish(acc))
    else if j == |ks| then Err(UndefinedLine)
    else
      match Step(ks[j], start, date, acc)
      case Next(d, a) => Walk(ks, j + 1, start, d, a)
      case Done(r) => r
  }

  /** The parse of the text's lines: header scan, then the satellite loop
      from two lines past the header line. */
  function LoadLines(lines: seq<string>, kw: string): Result<Sp3Object> {
    match HeaderFrom(lines, 0)
    case Err(f) => Err(f)
    case Ok(h) =>
      var start := EpochOf(Tokens(lines[h]));
      Walk(Kinds(lines, kw), h + 2, start, start, Acc([], map[]))
  }

  /** `loadSp3(val, keyword)` as a function. */
  function ParseSp3(val: string, keyword: Option<string>): Result<Sp3Object> {
    LoadLines(Split(val, '\n'), Keyword(keyword))
  }

  lemma {:induction false} LoadLinesHeader(lines: seq<string>, kw: string)
    ensures HeaderFrom(lines, 0).Err? ==> LoadLines(lines, kw) == Err(UndefinedLine)
    ensures HeaderFrom(lines, 0).Ok? ==>
              var h := HeaderFrom(lines, 0).value;
              var start := EpochOf(Tokens(lines[h]));
              LoadLines(lines, kw) == Walk(Kinds(lines, kw), h + 2, start, start, Acc([], map[]))
  {
  }

  /** The first loop of `loadSp3`: the index of the header's epoch line. */
  method HeaderScan(value: seq<string>) returns (r: Result<nat>)
    ensures r == HeaderFrom(value, 0)
  {
    var i := 0;
    // while (value[i].indexOf('EOF') === -1 && i <= 100)
    while true
      invariant i <= 101
      invariant HeaderFrom(value, i) == HeaderFrom(value, 0)
      decreases 101 - i
    {
      if i >= |value| {
        return Err(UndefinedLine);
      }
      if Contains(value[i], "EOF") || i > 100 {
        break;
      }
      if StartsWithStar(value[i]) {
        break;
      }
      i := i + 1;
    }
    return Ok(i);
  }

  /** The body of the satellite loop of `loadSp3`, for one line. */
  method SatelliteLine(line: string, kw: string, start: Instant, date: Instant, acc: Acc) returns (o: Outcome)
    ensures o == Step(Classify(line, kw), start, date, acc)
  {
    var keys, series := acc.keys, acc.series;
    var ts := Tokens(line);
    if ts[0] == "*" {
      return Next(EpochOf(ts), acc);
    }
    if Contains(ts[0], "EOF") {
      if start.InvalidDate? || date.InvalidDate? {
        return Done(Err(InvalidTimeValue));
      }
      return Done(Ok(Close(acc, Span(start.ms, date.ms))));
    }
    if Contains(ts[0], "V") {
      return Next(date, acc);
    } else if Contains(ts[0], kw) {
      var name := Slice(ts[0], 1, |ts[0]|);
      if date.InvalidDate? {
        return Done(Err(InvalidTimeValue));
      }
      var group := ScaledGroup(SampleOf(date.ms, ts));
      if name in series || name in ObjectMembers {
        if name !in series {
          // an inherited member has no `push`
          return Done(Err(PushOnInherited));
        }
        series := series[name := series[name] + group];
        return Next(date, Acc(keys, series));
      }
      keys := keys + [name];
      series := series[name := group];
    }
    return Next(date, Acc(keys, series));
  }

  /** The satellite loop of `loadSp3`; `i` is the index after the header's
      epoch line, `start` that line's epoch. */
  method SatelliteLoop(value: seq<string>, kw: string, i: nat, start: Instant) returns (r: Result<Sp3Object>)
    ensures r == Walk(Kinds(value, kw), i + 1, start, start, Acc([], map[]))
  {
    ghost var ks := Kinds(value, kw);
    ghost var spec := Walk(ks, i + 1, start, start, Acc([], map[]));
    var i := i;
    var date := start;
    var keys: seq<string> := [];
    var series: map<string, seq<Cell>> := map[];
    while i < |value|
      invariant Walk(ks, i + 1, start, date, Acc(keys, series)) == spec
      decreases |value| - i
    {
      i := i + 1;
      if i >= |value| {
        return Err(UndefinedLine);
      }
      var o := SatelliteLine(value[i], kw, start, date, Acc(keys, series));
      assert ks[i] == Classify(value[i], kw);
      if o.Done? {
        return o.r;
      }
      date, keys, series := o.date, o.acc.keys, o.acc.series;
    }
    return Ok(Finish(Acc(keys, series)));
  }

  /** `loadSp3(val, keyword)`. */
  method LoadSp3(val: string, keyword: Option<string>) returns (r: Result<Sp3Object>)
    ensures r == ParseSp3(val, keyword)
  {
    var kw := Keyword(keyword);
    var value := Split(val, '\n');
    LoadLinesHeader(value, kw);
    var header := HeaderScan(value);
    if header.Err? {
      return Err(header.failure);
    }
    var i := header.value;
    var splitLine := Tokens(value[i]);
    i := i + 1;
    var start := EpochOf(splitLine);
    r := SatelliteLoop(value, kw, i, start);
  }

  // ------------------------------------------------------------ properties

  /** The header scan only looks at lines up to the one it stops at. */
  lemma {:induction false} HeaderFrame(lines: seq<string>, lines': seq<string>, i: nat, h: nat)
    requires i <= h <= 101 && HeaderFrom(lines, i) == Ok(h)
    requires h < |lines'| && forall j :: i <= j <= h ==> lines'[j] == lines[j]
    ensures HeaderFrom(lines', i) == Ok(h)
    decreases h - i
  {
    if i < h {
      HeaderFrame(lines, lines', i + 1, h);
    }
  }

  /** The satellite loop only looks at lines from `j` on. */
  lemma {:induction false} WalkFrame(ks: seq<LineKind>, ks': seq<LineKind>, j: nat,
                                      start: Instant, date: Instant, acc: Acc)
    requires |ks'| == |ks|
    requires forall k :: j <= k < |ks| ==> ks'[k] == ks[k]
    ensures Walk(ks', j, start, date, acc) == Walk(ks, j, start, date, acc)
    decreases |ks| + 1 - j
  {
    if j < |ks| {
      match Step(ks[j], start, date, acc)
      case Next(d, a) => WalkFrame(ks, ks', j + 1, start, d, a);
      case Done(r) =>
    }
  }

  /** The line right after the header's epoch line is never classified:
      changing it changes nothing (the header line is read with `i++`, and
      the loop increments `i` again before reading). */
  lemma {:induction false} LineAfterHeaderIgnored(lines: seq<string>, lines': seq<string>, kw: string, h: nat)
    requires HeaderFrom(lines, 0) == Ok(h)
    requires |lines'| == |lines|
    requires forall j :: 0 <= j < |lines| && j != h + 1 ==> lines'[j] == lines[j]
    ensures LoadLines(lines', kw) == LoadLines(lines, kw)
  {
    HeaderFrame(lines, lines', 0, h);
    var start := EpochOf(Tokens(lines[h]));
    var ks, ks' := Kinds(lines, kw), Kinds(lines', kw);
    forall k | h + 2 <= k < |ks| ensures ks'[k] == ks[k] {
      assert lines'[k] == lines[k];
    }
    WalkFrame(ks, ks', h + 2, start, start, Acc([], map[]));
    LoadLinesHeader(lines, kw);
    LoadLinesHeader(lines', kw);
  }

  /** The series the loop appends for satellite `name` from line `j` on:
      one group per position line for `name`, in file order, stamped with
      the epoch current at that line, up to the first end line. */
  function Projection(ks: seq<LineKind>, j: nat, date: Instant, name: string): seq<Cell>
    decreases |ks| - j
  {
    if j >= |ks| then []
    else
      match ks[j]
      case EpochLine(ts) => Projection(ks, j + 1, EpochOf(ts), name)
      case EndLine => []
      case PositionLine(n, ts) =>
        (if n == name && date.Time? then ScaledGroup(SampleOf(date.ms, ts)) else [])
        + Projection(ks, j + 1, date, name)
      case _ => Projection(ks, j + 1, date, name)
  }

  /** The epoch current at the first end line from line `j` on, if the
      loop reaches one. */
  function EndEpoch(ks: seq<LineKind>, j: nat, date: Instant): Option<Instant>
    decreases |ks| - j
  {
    if j >= |ks| then None
    else
      match ks[j]
      case EpochLine(ts) => EndEpoch(ks, j + 1, EpochOf(ts))
      case EndLine => Some(date)
      case _ => EndEpoch(ks, j + 1, date)
  }

  function Gathered(acc: Acc, name: string): seq<Cell> {
    if name in acc.series then acc.series[name] else []
  }

  lemma {:induction false} PutWf(acc: Acc, name: string, g: seq<Cell>)
    requires AccWf(acc) && |g| == 4
    ensures AccWf(Put(acc, name, g))
    ensures forall n :: Gathered(Put(acc, name, g), n) == Gathered(acc, n) + (if n == name then g else [])
  {
    var acc' := Put(acc, name, g);
    if name in acc.series {
      assert |acc.series[name] + g| == |acc.series[name]| + 4;
    } else {
      forall a, b | 0 <= a < b < |acc'.keys| ensures acc'.keys[a] != acc'.keys[b] {
        if b == |acc.keys| {
          assert acc'.keys[a] == acc.keys[a] && acc'.keys[b] == name;
        }
      }
    }
  }

  lemma {:induction false} FinishWf(acc: Acc)
    requires AccWf(acc)
    ensures Wf(Finish(acc))
  {
  }

  lemma {:induction false} CloseWf(acc: Acc, span: Span)
    requires AccWf(acc)
    ensures Wf(Close(acc, span))
  {
    var o := Close(acc, span);
    if "interval" !in acc.series {
      forall a, b | 0 <= a < b < |o.keys| ensures o.keys[a] != o.keys[b] {
        if b == |acc.keys| {
          assert o.keys[a] == acc.keys[a];
        }
      }
    }
  }

  /** The object the satellite loop returns is well formed. */
  lemma {:induction false} WalkWf(ks: seq<LineKind>, j: nat, start: Instant, date: Instant, acc: Acc)
    requires AccWf(acc)
    requires Walk(ks, j, start, date, acc).Ok?
    ensures Wf(Walk(ks, j, start, date, acc).value)
    decreases |ks| + 1 - j
  {
    if j > |ks| {
      FinishWf(acc);
    } else {
      match ks[j]
      case EpochLine(ts) => WalkWf(ks, j + 1, start, EpochOf(ts), acc);
      case EndLine => CloseWf(acc, Span(start.ms, date.ms));
      case VelocityLine => WalkWf(ks, j + 1, start, date, acc);
      case PositionLine(n, ts) =>
        var g := ScaledGroup(SampleOf(date.ms, ts));
        PutWf(acc, n, g);
        WalkWf(ks, j + 1, start, date, Put(acc, n, g));
      case OtherLine => WalkWf(ks, j + 1, start, date, acc);
    }
  }

  lemma {:induction false} WalkAtPosition(ks: seq<LineKind>, j: nat, start: Instant, date: Instant, acc: Acc)
    requires j < |ks| && ks[j].PositionLine? && date.Time?
    requires ks[j].name in acc.series || ks[j].name !in ObjectMembers
    ensures Walk(ks, j, start, date, acc)
         == Walk(ks, j + 1, start, date, Put(acc, ks[j].name, ScaledGroup(SampleOf(date.ms, ks[j].ts))))
  {
  }

  lemma {:induction false} ProjectionAtPosition(ks: seq<LineKind>, j: nat, date: Instant, name: string)
    requires j < |ks| && ks[j].PositionLine? && date.Time?
    ensures Projection(ks, j, date, name)
         == (if ks[j].name == name then ScaledGroup(SampleOf(date.ms, ks[j].ts)) else [])
            + Projection(ks, j + 1, date, name)
  {
  }

  lemma {:induction false} SeriesAfterPut(acc: Acc, n: string, g: seq<Cell>, name: string, later: seq<Cell>, o: Sp3Object)
    requires |g| == 4
    requires name in o.vals <==> name in Put(acc, n, g).series || later != []
    requires name in o.vals ==> o.vals[name] == Series(Gathered(Put(acc, n, g), name) + later)
    ensures var mine := if n == name then g else [];
            && (name in o.vals <==> name in acc.series || mine + later != [])
            && (name in o.vals ==> o.vals[name] == Series(Gathered(acc, name) + (mine + later)))
  {
    var mine := if n == name then g else [];
    assert Gathered(Put(acc, n, g), name) == Gathered(acc, name) + mine;
    assert (Gathered(acc, name) + mine) + later == Gathered(acc, name) + (mine + later);
  }

  /** Each satellite's series in the returned object is what it had plus
      its projection from line `j` on. */
  lemma {:induction false} WalkSeries(ks: seq<LineKind>, j: nat, start: Instant, date: Instant,
                                       acc: Acc, name: string)
    requires Walk(ks, j, start, date, acc).Ok?
    requires name != "interval"
    ensures var o := Walk(ks, j, start, date, acc).value;
            && (name in o.vals <==> name in acc.series || Projection(ks, j, date, name) != [])
            && (name in o.vals ==> o.vals[name] == Series(Gathered(acc, name) + Projection(ks, j, date, name)))
    decreases |ks| + 1 - j
  {
    if j < |ks| {
      match ks[j]
      case EpochLine(ts) => WalkSeries(ks, j + 1, start, EpochOf(ts), acc, name);
      case EndLine =>
      case VelocityLine => WalkSeries(ks, j + 1, start, date, acc, name);
      case PositionLine(n, ts) =>
        var g := ScaledGroup(SampleOf(date.ms, ts));
        WalkSeries(ks, j + 1, start, date, Put(acc, n, g), name);
        WalkAtPosition(ks, j, start, date, acc);
        ProjectionAtPosition(ks, j, date, name);
        SeriesAfterPut(acc, n, g, name, Projection(ks, j + 1, date, name), Walk(ks, j + 1, start, date, Put(acc, n, g)).value);
      case OtherLine => WalkSeries(ks, j + 1, start, date, acc, name);
    }
  }

  /** No key of the object the loop returns is an inherited member: the
      loop throws before it could create one. */
  lemma {:induction false} WalkOwnKeys(ks: seq<LineKind>, j: nat, start: Instant, date: Instant, acc: Acc)
    requires Walk(ks, j, start, date, acc).Ok?
    requires forall k :: k in acc.series ==> k !in ObjectMembers
    ensures forall k :: k in Walk(ks, j, start, date, acc).value.vals ==> k !in ObjectMembers
    decreases |ks| + 1 - j
  {
    if j < |ks| {
      match ks[j]
      case EpochLine(ts) => WalkOwnKeys(ks, j + 1, start, EpochOf(ts), acc);
      case EndLine =>
      case VelocityLine => WalkOwnKeys(ks, j + 1, start, date, acc);
      case PositionLine(n, ts) =>
        WalkOwnKeys(ks, j + 1, start, date, Put(acc, n, ScaledGroup(SampleOf(date.ms, ts))));
      case OtherLine => WalkOwnKeys(ks, j + 1, start, date, acc);
    }
  }

  /** `interval` is set exactly when an end line is reached, to the span
      from `start` to the epoch current there; without an end line the
      object is the one the loop started from. */
  lemma {:induction false} WalkInterval(ks: seq<LineKind>, j: nat, start: Instant, date: Instant, acc: Acc)
    requires Walk(ks, j, start, date, acc).Ok?
    ensures var o := Walk(ks, j, start, date, acc).value;
            var e := EndEpoch(ks, j, date);
            && ("interval" in o.vals && o.vals["interval"].Covered? <==> e.Some?)
            && (e.Some? ==>
                  start.Time? && e.value.Time? &&
                  "interval" in o.vals && o.vals["interval"] == Covered(Span(start.ms, e.value.ms)))
            && (e.None? ==> j > |ks| && o == Finish(acc))
    decreases |ks| + 1 - j
  {
    if j < |ks| {
      match ks[j]
      case EpochLine(ts) => WalkInterval(ks, j + 1, start, EpochOf(ts), acc);
      case EndLine =>
      case VelocityLine => WalkInterval(ks, j + 1, start, date, acc);
      case PositionLine(n, ts) =>
        WalkInterval(ks, j + 1, start, date, Put(acc, n, ScaledGroup(SampleOf(date.ms, ts))));
      case OtherLine => WalkInterval(ks, j + 1, start, date, acc);
    }
  }

  /** The object `loadSp3` returns is well formed: its keys are distinct and
      are exactly its properties, and every series is a non-empty run of
      whole `(time, x, y, z)` groups. */
  lemma {:induction false} Sp3Wf(lines: seq<string>, kw: string)
    requires LoadLines(lines, kw).Ok?
    ensures Wf(LoadLines(lines, kw).value)
  {
    LoadLinesHeader(lines, kw);
    var h := HeaderFrom(lines, 0).value;
    var start := EpochOf(Tokens(lines[h]));
    WalkWf(Kinds(lines, kw), h + 2, start, start, Acc([], map[]));
  }

  /** A satellite has a key in the object `loadSp3` returns exactly when a
      position line names it before the end line, and its series is one
      `(Iso(epoch), x*1000, y*1000, z*1000)` group per such line, in file
      order, stamped with the latest epoch line above it (`h` is the header
      line). */
  lemma {:induction false} Sp3Series(lines: seq<string>, kw: string, name: string)
    requires LoadLines(lines, kw).Ok?
    requires name != "interval"
    ensures HeaderFrom(lines, 0).Ok?
    ensures var h := HeaderFrom(lines, 0).value;
            var series := Projection(Kinds(lines, kw), h + 2, EpochOf(Tokens(lines[h])), name);
            var o := LoadLines(lines, kw).value;
            && (name in o.vals <==> series != [])
            && (name in o.vals ==> o.vals[name] == Series(series))
  {
    LoadLinesHeader(lines, kw);
    var h := HeaderFrom(lines, 0).value;
    var start := EpochOf(Tokens(lines[h]));
    WalkSeries(Kinds(lines, kw), h + 2, start, start, Acc([], map[]), name);
  }

  /** `interval` holds `Iso(start)/Iso(epoch)` exactly when an end line is
      reached, where `start` is the header line's epoch and `epoch` the one
      current at the end line; when no end line is reached, the object is
      empty. */
  lemma {:induction false} Sp3Interval(lines: seq<string>, kw: string)
    requires LoadLines(lines, kw).Ok?
    ensures HeaderFrom(lines, 0).Ok?
    ensures var h := HeaderFrom(lines, 0).value;
            var start := EpochOf(Tokens(lines[h]));
            var end := EndEpoch(Kinds(lines, kw), h + 2, start);
            var o := LoadLines(lines, kw).value;
            && ("interval" in o.vals && o.vals["interval"].Covered? <==> end.Some?)
            && (end.Some? ==>
                  start.Time? && end.value.Time? &&
                  "interval" in o.vals && o.vals["interval"] == Covered(Span(start.ms, end.value.ms)))
            && (end.None? ==> o.keys == [])
  {
    LoadLinesHeader(lines, kw);
    var h := HeaderFrom(lines, 0).value;
    var start := EpochOf(Tokens(lines[h]));
    WalkInterval(Kinds(lines, kw), h + 2, start, start, Acc([], map[]));
  }

  /** A successful load holds no `Object.prototype` name as a key, and no
      position line before the end line names one under a valid epoch:
      reading such a line throws, since the name is already defined on the
      object but has no `push`. */
  lemma {:induction false} Sp3NoInherited(lines: seq<string>, kw: string, name: string)
    requires LoadLines(lines, kw).Ok?
    requires name in ObjectMembers
    ensures HeaderFrom(lines, 0).Ok?
    ensures var h := HeaderFrom(lines, 0).value;
            name !in LoadLines(lines, kw).value.vals &&
            Projection(Kinds(lines, kw), h + 2, EpochOf(Tokens(lines[h])), name) == []
  {
    LoadLinesHeader(lines, kw);
    var h := HeaderFrom(lines, 0).value;
    var start := EpochOf(Tokens(lines[h]));
    WalkOwnKeys(Kinds(lines, kw), h + 2, start, start, Acc([], map[]));
    Sp3Series(lines, kw, name);
  }
}
