# gnss-cesium converters in Dafny

This project models the two data converters of gnss-cesium. They turn satellite data into CZML, the JSON packet format Cesium animates.

- `lib/sp3.ts` covers the orbit side.
  - `loadSp3` reads the text of an SP3 orbit file into one flat series of `(time, x, y, z)` groups per satellite, plus the interval the file covers.
  - `sp3ToCZML` turns those series into one satellite packet per key, in a sticky style: point or billboard, scale, alpha and colour.
  - `GNSSId`/`IdGNSS` map a constellation to the first letter of its satellite ids and back.
  - `getColorArray` reads a `#rrggbb` colour.
- `lib/link.ts` covers the link side.
  - `loadEventLink` reads raw GNSS-LEO link events. It filters them by keyword and groups them by satellite pair into runs of events. A kept event joins the last run of its pair exactly when `checkEvent` holds between the previously kept event, of whatever pair, and itself: same pair, and starting at most a second after that event ends. Otherwise it opens a new run.
  - `eventToCZML` makes one packet per pair. The packet's line and point are shown on a schedule that alternates hidden and visible intervals across the window (`eventShowAndAvailability`). Its positions are the pair's samples, four cells each (`eventPointPosition`).

The model is arranged as follows:

- Each imperative routine is a Dafny `method` with the source's loops. Its contract ties it to a function: `LoadSp3` to `ParseSp3`, `Sp3ToCzml` to `Sp3ToCzmlSpec`, `LoadEventLink` to `LoadEvents`, `EventToCzml` to `EventsToCzml`.
- Lemmas state what those functions promise.
- The JavaScript built-ins the code relies on are written out in `JsRuntime`: `split`, `trim().split(/\s+/)`, `indexOf`, `slice`, `parseInt`. `Date.UTC` is written out in `Dates`.
- Exceptions the code can throw are the `Err` cases of a `Result`:
  - a line read past the end;
  - an empty date string;
  - `toISOString` of an invalid date;
  - the first part of an empty run;
  - `push` on a satellite name that the result object `{}` inherits from `Object.prototype`, such as `constructor`, `toString` or `__proto__`.
- ISO date text is kept symbolic: an instant is its millisecond count. A `Span(a, b)` stands for the text `Iso(a) + '/' + Iso(b)`.
- The Earth-fixed to inertial rotation is kept symbolic: a cell `Scaled(X, s)` or `Printed(X, s)` stands for a rotated coordinate of sample `s`.

Behaviours of the code a reader may not expect, modelled as written:

- An event the keyword filter drops does not become `lastEvent`: the `continue` comes before `lastEvent = event` (lib/link.ts:102-104,128).
- Event positions are converted before the filter. A bad position text fails the whole load even for an event that is then dropped (lib/link.ts:90-104).
- The line right after the first epoch line of an SP3 file is never read: `i++` at lib/sp3.ts:57 and again at :71. A position record placed there is lost.
- `lastEvent` is shared by all pairs (lib/link.ts:87,115-128). A kept event of another pair listed between two events of one pair splits that pair's run, even when `checkEvent` would join the two. The first event is compared with itself, and so always opens a run.
- The SP3 result is a plain object `{}` (lib/sp3.ts:45). A position line whose satellite name is inherited from `Object.prototype`, for instance `Pconstructor ...` with keyword `P`, finds `obj[name]` already defined and calls its missing `push`, a TypeError (lib/sp3.ts:101-102). With an invalid epoch, `toISOString` throws its RangeError first, because arguments are evaluated before the call.
- The keyword filter of `loadEventLink` loops with `for...in`, so it tests the index strings "0", "1", ... rather than the keywords (see Findings). With an empty keyword list every event is dropped. An event without a `gnss` field is kept whenever the list is non-empty.

## Model

| member | source | states |
|---|---|---|
| Gnss.IdGnssInverse | lib/sp3.ts:17-28 | `IdGNSS` is exactly the inverse of `GNSSId`: G, C, E, R name GPS, BDS, GAL, GLO and every other letter names nothing |
| Gnss.BuildIdGnss | lib/sp3.ts:24-28 | the loop filling `IdGNSS` leaves a map that sends each family's prefix back to that family and holds no other key |
| Gnss.ColorArrayOfHex | lib/sp3.ts:30-36 | for `#rrggbb` with hexadecimal digits the three components are the bytes spelled by characters 1-2, 3-4 and 5-6, each in 0..255 |
| JsRuntime.Split | lib/link.ts:84-85 | `split` with a one-character separator yields at least one piece and no piece holds the separator |
| JsRuntime.JoinSplit | lib/link.ts:84-85 | joining the pieces of `split` with the separator gives back the text |
| JsRuntime.SplitAtFirst | lib/link.ts:105 | a text `a + sep + b` with no separator in `a` splits into `a` followed by the pieces of `b` |
| JsRuntime.Tokens | lib/sp3.ts:57 | `trim().split(/\s+/)` always yields a first token |
| JsRuntime.WordsAreRuns | lib/sp3.ts:72 | every token is a non-empty run of non-space characters and the tokens together are the line's non-space characters in order |
| JsRuntime.ContainsIff | lib/sp3.ts:158 | `indexOf(sub) !== -1` holds exactly when `sub` occurs at some position of the text |
| JsRuntime.Slice | lib/sp3.ts:32-34 | within bounds a slice is exactly the characters from `from` up to `to`; bounds past the end are clamped, and an empty or reversed range gives "" |
| JsRuntime.DigitPrefix | lib/sp3.ts:32-34 | `parseInt` reads a prefix of the text whose digits are all below the radix |
| JsRuntime.DigitPrefixOfDecimals | lib/link.ts:46-51 | a text of decimal digits is read in full and has its decimal value |
| JsRuntime.DigitPrefixAppend | lib/link.ts:46-51 | one more valid digit extends the digits read by exactly that digit |
| JsRuntime.DecimalParse | lib/link.ts:46-51 | `parseInt` of a non-empty text of decimal digits is its decimal value |
| JsRuntime.HexPairParse | lib/sp3.ts:32-34 | `parseInt('0x' + two hex digits)` is the byte they spell, in 0..255 |
| JsRuntime.DecimalString | lib/link.ts:46-51 | the decimal text of a number is non-empty and made of decimal digits |
| JsRuntime.DecimalRoundTrip | lib/link.ts:46-51 | reading back the decimal text of a number, by value or by `parseInt`, gives the number |
| Dates.DateUtc | lib/link.ts:45-52 | `Date.UTC` with any NaN argument is the invalid date, and a valid result lies within the TimeClip range |
| Dates.IsoOf | lib/link.ts:86 | `toISOString` succeeds exactly on a valid date and then renders that instant |
| Dates.AprilMayBoundary | lib/link.ts:45-52 | `Date.UTC` gives 2015-04-30T23:59:59Z, 2015-05-01T00:00:00Z and 00:00:01Z as 1430438399000, 1430438400000 and 1430438401000 ms |
| Frame.ScaledGroup | lib/sp3.ts:102-105 | an SP3 sample contributes four cells: its ISO time, then the x, y and z components of that same sample in that order |
| Frame.PrintedRow | lib/link.ts:94 | an event sample is four cells: its ISO time, then the x, y and z components of that same sample in that order |
| Sp3Load.Keyword | lib/sp3.ts:46-48 | the keyword is the given one when non-empty and `P` otherwise, never empty |
| Sp3Load.HeaderFrom | lib/sp3.ts:50-55 | the header scan stops at a line index between its start and 101 that exists, or fails only by reading past the end |
| Sp3Load.HeaderLine | lib/sp3.ts:50-55 | the scan stops at the first line that starts with `*` or contains `EOF`, or at 101; it fails only when no such line exists and the file is shorter than 102 lines |
| Sp3Load.HeaderScan | lib/sp3.ts:50-55 | the header while loop computes `HeaderFrom` |
| Sp3Load.SatelliteLine | lib/sp3.ts:72-115 | one body of the satellite loop: an epoch line sets the date, EOF closes the interval, `V` lines and other lines change nothing, a keyword line appends one group to its satellite (creating the key if new), and throws when the name is an inherited `Object.prototype` member, which is defined but has no `push` |
| Sp3Load.SatelliteLoop | lib/sp3.ts:70-116 | the satellite while loop computes the fold `Walk` over the classified lines |
| Sp3Load.LoadSp3 | lib/sp3.ts:44-118 | `loadSp3` computes `ParseSp3` |
| Sp3Load.HeaderFrame | lib/sp3.ts:50-55 | the header scan depends only on the lines it reads |
| Sp3Load.WalkFrame | lib/sp3.ts:70-116 | the satellite loop depends only on the lines from its position on |
| Sp3Load.LineAfterHeaderIgnored | lib/sp3.ts:57-72 | changing the line right after the first epoch line never changes the result |
| Sp3Load.PutWf | lib/sp3.ts:101-114 | appending a group keeps keys distinct and series non-empty multiples of four, and only the named satellite's series grows |
| Sp3Load.FinishWf | lib/sp3.ts:117 | the object returned without an interval is well formed |
| Sp3Load.CloseWf | lib/sp3.ts:86-90 | setting `interval` keeps the object well formed |
| Sp3Load.WalkWf | lib/sp3.ts:70-116 | the loop returns a well-formed object: distinct keys, each series a non-empty multiple of four |
| Sp3Load.SeriesAfterPut | lib/sp3.ts:101-114 | a satellite's series is what was gathered before plus its group and what comes later |
| Sp3Load.WalkSeries | lib/sp3.ts:70-116 | a satellite is present exactly when some line names it, and its series is its groups in file order, each stamped with the latest epoch |
| Sp3Load.WalkInterval | lib/sp3.ts:86-90 | `interval` is set exactly when an EOF line is reached, to the first epoch and the epoch then current |
| Sp3Load.Sp3Wf | lib/sp3.ts:44-118 | a parsed file is well formed |
| Sp3Load.Sp3Series | lib/sp3.ts:70-115 | each satellite's series is exactly its groups in file order, read after the skipped line |
| Sp3Load.Sp3Interval | lib/sp3.ts:86-90 | on a successful load the interval runs from the first epoch to the epoch current at EOF; a successful load that sets no interval is one whose satellite loop never ran, and its object is empty |
| Sp3Load.WalkOwnKeys | lib/sp3.ts:45-115 | no key of the object the loop returns is an `Object.prototype` name: the loop throws before creating one |
| Sp3Load.Sp3NoInherited | lib/sp3.ts:45-115 | a successful load holds no `Object.prototype` name as a key, and no position line before EOF names one under a valid epoch |
| Sp3Czml.VisitsOf | lib/sp3.ts:152 | an object is visited once per key |
| Sp3Czml.MatchKeywords | lib/sp3.ts:155-164 | the keyword loop with its `break` finds a match exactly when some keyword occurs in the key |
| Sp3Czml.DrawKey | lib/sp3.ts:153-255 | one visit: a filtered key changes nothing, a chosen key updates the style and pushes its packet |
| Sp3Czml.DrawObject | lib/sp3.ts:152-256 | the key loop of one object continues the fold over all visits |
| Sp3Czml.Sp3ToCzml | lib/sp3.ts:129-260 | `sp3ToCZML` computes `Sp3ToCzmlSpec` |
| Sp3Czml.RestyleStyleOf | lib/sp3.ts:168-177 | the style after one more key is the style read off all chosen keys |
| Sp3Czml.DrawnAt | lib/sp3.ts:178-254 | the k-th packet is drawn in the style left by the first k+1 chosen keys |
| Sp3Czml.RunStyle | lib/sp3.ts:145-177 | the loops leave exactly the packets of the chosen keys and the style they imply |
| Sp3Czml.ChosenIff | lib/sp3.ts:153-165 | a key is drawn exactly when it is not "interval" and the keyword filter passes it |
| Sp3Czml.VisitsCover | lib/sp3.ts:151-152 | every key of every object is visited |
| Sp3Czml.ChosenPacket | lib/sp3.ts:151-254 | there is one packet per chosen key, in order, each drawn in its sticky style |
| Sp3Czml.Sp3PacketsFollowKeys | lib/sp3.ts:178-253 | each packet carries its key as id and label, the window as availability and epoch, its series unchanged, and a path exactly when the key is not GNSS |
| Sp3Czml.Sp3GnssStyle | lib/sp3.ts:168-224 | a GNSS key is drawn in its family's colour at alpha 128 and half scale, as a billboard once any LEO key came before |
| Sp3Czml.Sp3LeoStyle | lib/sp3.ts:175-246 | a LEO key is a billboard in the colour and alpha the last earlier GNSS key left, and has a path with trail time 12800 |
| EventLoad.StringToDate | lib/link.ts:43-55 | `stringToDate` throws exactly on an undefined or empty string |
| EventLoad.FieldAt | lib/link.ts:46-51 | the i-th field is `parseInt` of the i-th slice |
| EventLoad.StringToDateDigits | lib/link.ts:46-51 | on fourteen digits each field is the decimal value of its fixed-width slice |
| EventLoad.StringToDateReads | lib/link.ts:43-55 | fourteen digits `yyyymmddhhmmss` give `Date.UTC` of their six fields, the month less one |
| EventLoad.MonthRollover | lib/link.ts:43-55 | the texts 20150430235959 and 20150501000000, one second apart across a change of minute, hour, day and month, read as valid instants exactly 1000 ms apart |
| EventLoad.FieldDigits | lib/link.ts:46-51 | a slice of decimal digits parses to its value |
| EventLoad.Samples | lib/link.ts:90-95 | converting positions keeps one sample per item |
| EventLoad.SamplesAt | lib/link.ts:90-95 | the k-th sample is the conversion of the k-th item |
| EventLoad.SamplesFail | lib/link.ts:90-95 | the first item that fails to convert fails the whole `map` |
| EventLoad.ForInFilterMissesKeywords | lib/link.ts:96-101 | as written, keyword "G" drops the GPS satellite "G11" and keeps the BDS satellite "C20" |
| EventLoad.ForOfFilterKeepsKeywords | lib/link.ts:96-101 | looping over the keywords themselves keeps an event exactly when its gnss holds some keyword, or it has no gnss and the list is non-empty |
| EventLoad.CheckEventIff | lib/link.ts:57-82 | `checkEvent` is true exactly for the same pair, different interval texts, readable dates, and the later event starting after the earlier ends by at most 1000 ms (or an invalid date) |
| EventLoad.IntervalHalves | lib/link.ts:70-71 | an interval text `a-b` whose halves hold no `-` is read by `checkEvent` as the dates of `a` and of `b` |
| EventLoad.CheckEventAt | lib/link.ts:57-82 | for two events of one pair with different interval texts and valid dates, `checkEvent` is true exactly when the later starts after the earlier ends, by 1000 ms at most |
| EventLoad.RolloverJoins | lib/link.ts:57-82 | an event ending at 20150430235959 and the next of its pair starting at 20150501000000 are joined into one run; one starting at 20150501000001 is not |
| EventLoad.SkippedEvent | lib/link.ts:96-104 | an event without gnss is dropped only when there are no keywords, and a dropped event leaves the state, `lastEvent` included, as it was |
| EventLoad.StitchedFail | lib/link.ts:88-129 | the first event that throws ends the loop with its error |
| EventLoad.EmptyEvents | lib/link.ts:83-88 | with no events the object is the window alone, and it fails exactly when a half of the interval text is not a valid date |
| EventLoad.ConvertPositions | lib/link.ts:90-95 | the position `map` computes `Samples` |
| EventLoad.OutGnss | lib/link.ts:96-101 | the filter loop computes the `for...in` reading of `Out` |
| EventLoad.MakePart | lib/link.ts:112-114 | the event part is the event's type, its two dates and its samples |
| EventLoad.CheckEventStep | lib/link.ts:57-82 | `checkEvent` with its early returns computes `CheckEvent` |
| EventLoad.JoinEvent | lib/link.ts:105-127 | the loop body after the filter computes `Join` |
| EventLoad.PlacePart | lib/link.ts:115-127 | a joined part goes to the end of the last run, any other opens a new run |
| EventLoad.AbsorbEvent | lib/link.ts:89-128 | the whole loop body computes `Absorb` |
| EventLoad.StitchEvents | lib/link.ts:87-129 | the event loop, `lastEvent` starting at the first event, computes `Stitched` |
| EventLoad.LoadEventLink | lib/link.ts:41-131 | `loadEventLink` computes `LoadEvents` with the `for...in` filter |
| EventRuns.PartDates | lib/link.ts:112-114 | a part's interval is its event's start and end instants, both valid |
| EventRuns.PlaceAppends | lib/link.ts:115-127 | placing a part appends it to the pair's parts read run after run |
| EventRuns.PlaceKeepsGood | lib/link.ts:115-127 | placing a part keeps every run contiguous and makes it the last part |
| EventRuns.PlaceStarts | lib/link.ts:115-127 | placing a part adds one run start flag to the pair, set exactly when the part is not joined |
| EventRuns.GoodHasParts | lib/link.ts:106-127 | a pair's runs hold at least one part |
| EventRuns.JoinedContinues | lib/link.ts:115-121 | a part joined to a run continues `lastEvent`'s pair, starting after its end by at most a second |
| EventRuns.JoinedPairHasRuns | lib/link.ts:105-121 | a joined event's pair already has runs |
| EventRuns.NewPairOpensRun | lib/link.ts:106-127 | the first kept event of a pair always opens a new run |
| EventRuns.WfUpdate | lib/link.ts:105-128 | updating a pair's runs keeps keys distinct and matched to runs |
| EventRuns.JoinKeeps | lib/link.ts:105-128 | a join keeps the state well formed and the last event placed, adding the key only for a new pair |
| EventRuns.JoinAddsOwn | lib/link.ts:105-128 | a join appends the event's part to its own pair's parts |
| EventRuns.JoinAdds | lib/link.ts:105-128 | a join appends the part to its own pair and changes no other pair |
| EventRuns.SkipStep | lib/link.ts:102-104 | a dropped event changes nothing |
| EventRuns.KeepStep | lib/link.ts:105-128 | a kept event adds its key if new and its part to its own pair |
| EventRuns.AbsorbStep | lib/link.ts:88-128 | each loop iteration keeps the invariant and adds exactly the event's contribution |
| EventRuns.StitchedInvariant | lib/link.ts:87-129 | after any prefix of events, the keys are the pairs in first-appearance order and each pair's runs hold exactly its kept parts in order |
| EventRuns.LoadedRuns | lib/link.ts:41-131 | every kept event lands in exactly one run of its pair, in input order; keys are distinct in first-appearance order; every run is contiguous |
| EventRuns.AbsorbOther | lib/link.ts:105-128 | a kept event becomes `lastEvent` and leaves the runs of every other pair unchanged |
| EventRuns.AbsorbSplitsOwn | lib/link.ts:112-128 | a kept event adds one run start flag to its own pair, set exactly when `checkEvent(lastEvent, event)` fails |
| EventRuns.AbsorbSplits | lib/link.ts:88-128 | one iteration moves `lastEvent` to the event when it is kept, and adds a flag to a pair only for a part it adds, opening a run exactly when `checkEvent` against the old `lastEvent` fails |
| EventRuns.StitchedSplits | lib/link.ts:87-128 | after any prefix of events, `lastEvent` is the last kept event (the first event before any) and each pair's runs start exactly at the parts whose event `checkEvent` does not join to the previous kept event |
| EventRuns.LoadedSplits | lib/link.ts:87-129 | in the loaded object a pair's part opens a run exactly when `checkEvent` fails between the previous kept event of any pair (`events[0]` before the first) and its event; the pair's run count is the number of such parts |
| EventRuns.NoJoin | lib/link.ts:59-70 | `checkEvent` never joins an event to itself, nor events of two different pairs |
| EventRuns.OpensRun | lib/link.ts:115-128 | a kept event that `checkEvent` does not join opens a new run holding its one part and becomes `lastEvent` |
| EventRuns.ContinuesRun | lib/link.ts:115-128 | a kept event that `checkEvent` joins is appended to its pair's last run and becomes `lastEvent` |
| EventRuns.StitchedOtherPair | lib/link.ts:87-128 | after two kept events of different pairs, the first pair has one run holding the first part and `lastEvent` is the second event |
| EventRuns.StitchedInterleaved | lib/link.ts:87-128 | with events a1, b, a2, where b is of another pair, a1 and a2 each open a run of their pair |
| EventRuns.StitchedAdjacent | lib/link.ts:87-128 | with events a1, a2 that `checkEvent` joins, the pair has one run holding both parts |
| EventRuns.InterleavedSplits | lib/link.ts:41-131 | loading a1, b, a2, all kept, with b of another pair: the pair of a1 has the two runs `[[p1], [p2]]` |
| EventRuns.AdjacentJoins | lib/link.ts:41-131 | loading a1, a2, both kept, that `checkEvent` joins: their pair has the one run `[[p1, p2]]` |
| EventCzml.TileClosed | lib/link.ts:153-169 | the run loop succeeds exactly when no run is empty, and then lays out a gap and a visible interval per run and ends at the last run's end |
| EventCzml.ScheduleClosed | lib/link.ts:146-177 | the schedule in closed form: gap and visible interval per run, then the rest of the window hidden |
| EventCzml.ScheduleTiles | lib/link.ts:146-177 | for n ≥ 1 runs there are 2n+1 toggles alternating hidden and visible, chained end to start from the window's start to its end, and availability is the n visible intervals in order |
| EventCzml.ScheduleEdges | lib/link.ts:146-177 | no runs give two empty lists, and the schedule fails exactly when some run is empty |
| EventCzml.RowsAppend | lib/link.ts:186-191 | the cells of two sample lists are the cells of each in turn |
| EventCzml.SamplesOfAppend | lib/link.ts:183-192 | the samples of two part lists are the samples of each in turn |
| EventCzml.RowsLayout | lib/link.ts:178-198 | there are four cells per sample, the i-th sample at cells 4i to 4i+3 |
| EventCzml.CollectAll | lib/link.ts:229-296 | the packet loop succeeds exactly when every key's packet does, with one packet per key in key order |
| EventCzml.CollectFail | lib/link.ts:229-296 | the first key whose packet throws ends the loop with its error |
| EventCzml.PacketsFollowIds | lib/link.ts:229-296 | one packet per pair key in order, each that pair's packet; the conversion fails exactly when some pair has an empty run |
| EventCzml.PacketFields | lib/link.ts:221-295 | name and id from the pair; the schedule on the point, on the line except in 2D, and on the label, which exists exactly when asked for; dash gives width 0.3 and alpha 160, else 0.8 and 255; positions are four cells per sample |
| EventCzml.PairTexts | lib/link.ts:231-235 | for a key `gnss/leo` the description and references name both satellites, and a non-empty `leoID` replaces the LEO reference |
| JsRuntime.SplitNone | lib/link.ts:231-232 | a text without the separator splits into itself |
| EventCzml.EventShowAndAvailability | lib/link.ts:146-177 | `eventShowAndAvailability` computes `ScheduleOf` |
| EventCzml.TileFail | lib/link.ts:153-169 | the first empty run ends the loop with a TypeError |
| EventCzml.PushRows | lib/link.ts:186-191 | the `map` over a part's samples appends their cells |
| EventCzml.PushParts | lib/link.ts:183-192 | the loop over a run's parts appends their cells in order |
| EventCzml.EventPointPosition | lib/link.ts:178-198 | `eventPointPosition` yields the cells of all samples, run after run and part after part |
| EventCzml.PairPacket | lib/link.ts:230-295 | the loop body for one pair key computes `PacketOf` |
| EventCzml.EventToCzml | lib/link.ts:144-297 | `eventToCZML` computes `EventsToCzml` |
| EventCzml.LoadedToCzml | lib/link.ts:229-296 | converting a loaded object never throws; there is one packet per pair in first-appearance order, whose positions are the pair's kept samples in event order and whose schedule has one visible interval per run |
| EventCzml.GoodNonEmpty | lib/link.ts:155-156 | a loaded pair has no empty run, so reading a run's first part never throws |

## Left out

- `computeFixedToIcrf` (lib/utils/satellite.ts) is not part of this model. The rotation is floating point, so a rotated coordinate is a symbolic cell of its sample.
- `parseFloat`, number-to-text conversion and the `* 1000` scaling of coordinates are kept symbolic. Scales and widths are Dafny reals.
- `toISOString` text is kept symbolic: an instant stands for its ISO text, which is injective and holds no '/'.
- `formatTime` (lib/utils/index.ts) is not part of this model. The description of an SP3 packet keeps the key and the two instants.
- The `JSON.parse(JSON.stringify(...))` copy at lib/sp3.ts:254 is an identity on this data and is left out.
- Constant styling fields are not modelled: fonts, origins, pixel offsets, `eyeOffset`, `followSurface`, `material` nesting, `resolution` names.
- A `LinksObject` is its window plus the pair keys in order, with a map to their runs.
  - JavaScript would list an integer-like key first; no pair key is integer-like, because each holds a '/'.
  - For the SP3 object the model keeps insertion order and does not model that integer-like-key reordering.
- Text is a sequence of Dafny characters; UTF-16 surrogate pairs are not modelled.
- Inherited object properties are the `Object.prototype` members of current JavaScript engines, listed in `Sp3Load.ObjectMembers`; names a host adds to `Object.prototype` are not modelled. An event pair key always holds a '/', so it can never be an inherited name (lib/link.ts:105-106).
- `lib/pick.ts`, `lib/collection/primitive.ts`, `lib/index.ts` and the build configuration are not part of this model.
- Sp3Czml.Sp3ToCzml: `start` and `end` arrive as instants already; an invalid one is the `toISOString` RangeError.

## Findings

| source | as written | input that shows it | evidently intended | confidence | as-written member | corrected member |
|---|---|---|---|---|---|---|
| lib/link.ts:97-101 | `for (let keyword in keywords)` tests the index strings "0", "1", ... against `event.gnss` | keywords `["G"]`: the GPS satellite "G11" is dropped and the BDS satellite "C20" is kept | `for...of`, as at lib/sp3.ts:157: keep an event whose gnss holds one of the keywords | high, not executed | EventLoad.ForInFilterMissesKeywords | EventLoad.ForOfFilterKeepsKeywords |

`LoadEvents` takes the loop form as a parameter. The method `LoadEventLink` follows the code as written. The properties of the loaded object hold for both loop forms: `EventRuns.LoadedRuns` and `EventCzml.LoadedToCzml`.
