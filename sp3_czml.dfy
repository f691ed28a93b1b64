/**
  `sp3ToCZML` (lib/sp3.ts): one CZML satellite packet for every key of
  every orbit object, in order, except the key "interval" and keys no
  keyword matches.

  The style variables `scale`, `alpha`, `color` and `model` are declared
  once, before the loops, and are never reset. A GNSS key (first letter G,
  C, E or R) sets scale 0.5, alpha 128 and its family's colour. Any other
  key switches the shape to a billboard. Each packet is drawn with the
  style left by all the keys chosen so far. `StyleOf` states that style
  directly and `RunStyle` proves the loop keeps it.
 */
module Sp3Czml {
  import opened JsRuntime
  import opened Dates
  import opened Gnss
  import opened Czml
  import opened Sp3Load

  /** `viewProperty.gnssColor`: one `#rrggbb` colour per family. */
  datatype GnssColors = GnssColors(gps: string, bds: string, gal: string, glo: string)

  /** `sp3Option`. */
  datatype Sp3Option = Sp3Option(leoColor: string, leoBillboard: string, gnssColor: GnssColors)

  /** `gnssColor[family]`, read once by `getColorArray`. */
  function Palette(opt: Sp3Option, f: Family): Rgb {
    match f
    case GPS => ColorArray(opt.gnssColor.gps)
    case BDS => ColorArray(opt.gnssColor.bds)
    case GAL => ColorArray(opt.gnssColor.gal)
    case GLO => ColorArray(opt.gnssColor.glo)
  }

  datatype Model = PointModel | BillboardModel

  /** The sticky style variables `scale`, `alpha`, `model` and `color`. */
  datatype Style = Style(scale: real, alpha: int, model: Model, color: Rgb)

  /** Their values before the first key: scale 1, alpha `baseAlpha` (200),
      a point, and the LEO colour. */
  function Initial(opt: Sp3Option): Style {
    Style(1.0, 200, PointModel, ColorArray(opt.leoColor))
  }

  /** `IdGNSS.get(key[0])`; the empty key reads `undefined`, which names no
      family. */
  function GnssOf(key: string): Option<Family> {
    if |key| == 0 then None else IdGnss(key[0])
  }

  /** The keyword filter: every key but "interval" when no keyword list is
      given or it is empty, otherwise a key that holds one of the keywords. */
  predicate Selected(key: string, keywords: Option<seq<string>>) {
    key != "interval" &&
    (keywords.None? || |keywords.value| == 0 ||
     exists k :: 0 <= k < |keywords.value| && Contains(key, keywords.value[k]))
  }

  /** The style after drawing `key`. */
  function Restyle(st: Style, key: string, opt: Sp3Option): Style {
    match GnssOf(key)
    case Some(f) => st.(scale := 0.5, alpha := 128, color := Palette(opt, f))
    case None => st.(model := BillboardModel)
  }

  /** `{ pixelSize, color, show }` or `{ image, scale, show, ... }`. */
  datatype Shape =
    | PointShape(pixelSize: real, color: Rgba, show: bool)
    | BillboardShape(image: string, scale: real, show: bool)

  datatype Label = Label(fillColor: Rgba, outlineColor: Rgba, outlineWidth: real,
                         scale: real, show: bool, text: string)

  datatype Path = Path(show: seq<Toggle>, width: real, color: Rgba,
                       leadTime: int, trailTime: int, resolution: int)

  /** `position`: the epoch is the first half of the interval text, so the
      start instant; `cartesian` is `content[key]` (`None` when absent). */
  datatype Position = Position(interpolation: string, degree: int, frame: string,
                               epoch: int, cartesian: Option<Entry>)

  /** `key + '\r\n' + formatTime(start) + '->' + formatTime(end)`, with the
      rendering of the two instants kept symbolic. */
  datatype Description = Description(key: string, start: int, end: int)

  datatype SatPacket = SatPacket(id: string, name: string, availability: Span,
                                 description: Description, shape: Shape, caption: Label,
                                 path: Option<Path>, position: Position)

  /** What the conversion depends on besides the orbit objects. */
  datatype Ctx = Ctx(opt: Sp3Option, span: Span, keywords: Option<seq<string>>)

  /** One key of one orbit object, as the nested loops visit it. */
  datatype Visit = Visit(key: string, content: Sp3Object)

  function Lookup(o: Sp3Object, key: string): Option<Entry> {
    if key in o.vals then Some(o.vals[key]) else None
  }

  /** The packet drawn for visit `v` in style `st`. */
  function Packet(v: Visit, st: Style, ctx: Ctx): SatPacket {
    var gnss := GnssOf(v.key);
    var period := if gnss.Some? then 43200 else 12800;
    var fill := WithAlpha(st.color, st.alpha);
    SatPacket(
      v.key, "satellite", ctx.span,
      Description(v.key, ctx.span.start, ctx.span.end),
      if st.model == PointModel then PointShape(10.0 * st.scale, fill, true)
      else BillboardShape(ctx.opt.leoBillboard, 0.05 * st.scale, true),
      Label(fill, Rgba(Some(255), Some(255), Some(255), st.alpha), 0.5, 2.0 * st.scale, true, v.key),
      if gnss.None? then Some(Path([Toggle(ctx.span, true)], 0.5, fill, 0, period, 240)) else None,
      Position("LAGRANGE", 2, "INERTIAL", ctx.span.start, Lookup(v.content, v.key)))
  }

  /** The visits of one object: its keys in order. */
  function VisitsOf(o: Sp3Object): (vs: seq<Visit>)
    ensures |vs| == |o.keys|
  {
    seq(|o.keys|, j requires 0 <= j < |o.keys| => Visit(o.keys[j], o))
  }

  /** The visits of all objects, in the order of `val.forEach`. */
  function Visits(val: seq<Sp3Object>): seq<Visit>
    decreases |val|
  {
    if val == [] then [] else Visits(val[..|val| - 1]) + VisitsOf(val[|val| - 1])
  }

  /** The packets pushed so far and the style variables. */
  datatype Trace = Trace(packets: seq<SatPacket>, style: Style)

  function Advance(t: Trace, v: Visit, ctx: Ctx): Trace {
    if !Selected(v.key, ctx.keywords) then t
    else
      var st := Restyle(t.style, v.key, ctx.opt);
      Trace(t.packets + [Packet(v, st, ctx)], st)
  }

  /** The state after the visits `vs`. */
  function Run(vs: seq<Visit>, ctx: Ctx): Trace
    decreases |vs|
  {
    if vs == [] then Trace([], Initial(ctx.opt))
    else Advance(Run(vs[..|vs| - 1], ctx), vs[|vs| - 1], ctx)
  }

  /** `sp3ToCZML(val, viewProperty, start, end, keywords)`: building the
      interval text throws a RangeError on an invalid date. */
  function Sp3ToCzmlSpec(val: seq<Sp3Object>, opt: Sp3Option, start: Instant, end: Instant,
                         keywords: Option<seq<string>>): Result<seq<SatPacket>> {
    if start.InvalidDate? || end.InvalidDate? then Err(InvalidTimeValue)
    else Ok(Run(Visits(val), Ctx(opt, Span(start.ms, end.ms), keywords)).packets)
  }

  /** The keyword loop with its early `break`. */
  method MatchKeywords(key: string, keywords: seq<string>) returns (found: bool)
    ensures found <==> exists k :: 0 <= k < |keywords| && Contains(key, keywords[k])
  {
    found := false;
    var k := 0;
    while k < |keywords|
      invariant 0 <= k <= |keywords|
      invariant !found && forall m :: 0 <= m < k ==> !Contains(key, keywords[m])
    {
      if Contains(key, keywords[k]) {
        found := true;
        return;
      }
      k := k + 1;
    }
  }

  /** The body of the key callback: filter, restyle, push. */
  method DrawKey(obj: seq<SatPacket>, st: Style, key: string, content: Sp3Object, ctx: Ctx)
    returns (obj': seq<SatPacket>, st': Style)
    ensures Trace(obj', st') == Advance(Trace(obj, st), Visit(key, content), ctx)
  {
    obj', st' := obj, st;
    if key != "interval" {
      var keywords := ctx.keywords;
      if keywords.Some? && |keywords.value| > 0 {
        var found := MatchKeywords(key, keywords.value);
        if !found {
          return;
        }
      }
      var scale, alpha, model, color := st.scale, st.alpha, st.model, st.color;
      var gnss := GnssOf(key);
      if gnss.Some? {
        scale := 0.5;
        alpha := 128;
        color := Palette(ctx.opt, gnss.value);
      } else {
        model := BillboardModel;
      }
      st' := Style(scale, alpha, model, color);
      obj' := obj + [Packet(Visit(key, content), st', ctx)];
    }
  }

  /** `Object.keys(content).map(...)` over one orbit object. */
  method DrawObject(obj: seq<SatPacket>, st: Style, content: Sp3Object, ctx: Ctx, ghost before: seq<Visit>)
    returns (obj': seq<SatPacket>, st': Style)
    requires Run(before, ctx) == Trace(obj, st)
    ensures Run(before + VisitsOf(content), ctx) == Trace(obj', st')
  {
    obj', st' := obj, st;
    assert before + VisitsOf(content)[..0] == before;
    for j := 0 to |content.keys|
      invariant Run(before + VisitsOf(content)[..j], ctx) == Trace(obj', st')
    {
      ghost var vs := before + VisitsOf(content)[..j];
      assert before + VisitsOf(content)[..j + 1] == vs + [Visit(content.keys[j], content)];
      obj', st' := DrawKey(obj', st', content.keys[j], content, ctx);
    }
    assert VisitsOf(content)[..|content.keys|] == VisitsOf(content);
  }

  method Sp3ToCzml(val: seq<Sp3Object>, opt: Sp3Option, start: Instant, end: Instant,
                   keywords: Option<seq<string>>) returns (r: Result<seq<SatPacket>>)
    ensures r == Sp3ToCzmlSpec(val, opt, start, end, keywords)
  {
    var obj: seq<SatPacket> := [];
    var st := Initial(opt);
    if start.InvalidDate? || end.InvalidDate? {
      return Err(InvalidTimeValue);
    }
    var ctx := Ctx(opt, Span(start.ms, end.ms), keywords);
    for i := 0 to |val|
      invariant Run(Visits(val[..i]), ctx) == Trace(obj, st)
    {
      assert val[..i + 1][..i] == val[..i];
      obj, st := DrawObject(obj, st, val[i], ctx, Visits(val[..i]));
    }
    assert val[..|val|] == val;
    r := Ok(obj);
  }

  /** The visits whose key the filter keeps, in order. */
  function Chosen(vs: seq<Visit>, keywords: Option<seq<string>>): seq<Visit>
    decreases |vs|
  {
    if vs == [] then []
    else
      var v := vs[|vs| - 1];
      Chosen(vs[..|vs| - 1], keywords) + (if Selected(v.key, keywords) then [v] else [])
  }

  /** The family of the last GNSS key among `cs`, if there is one. */
  function LastGnss(cs: seq<Visit>): Option<Family>
    decreases |cs|
  {
    if cs == [] then None
    else if GnssOf(cs[|cs| - 1].key).Some? then GnssOf(cs[|cs| - 1].key)
    else LastGnss(cs[..|cs| - 1])
  }

  /** Some key among `cs` is not a GNSS key. */
  predicate AnyLeo(cs: seq<Visit>) {
    exists k :: 0 <= k < |cs| && GnssOf(cs[k].key).None?
  }

  /** The style after drawing the keys `cs`, read off the keys themselves:
      the last GNSS key fixes scale, alpha and colour, and a single non-GNSS
      key is enough to turn every later shape into a billboard. */
  function StyleOf(cs: seq<Visit>, opt: Sp3Option): Style {
    var g := LastGnss(cs);
    Style(if g.Some? then 0.5 else 1.0,
          if g.Some? then 128 else 200,
          if AnyLeo(cs) then BillboardModel else PointModel,
          if g.Some? then Palette(opt, g.value) else ColorArray(opt.leoColor))
  }

  lemma RestyleStyleOf(cs: seq<Visit>, v: Visit, opt: Sp3Option)
    ensures Restyle(StyleOf(cs, opt), v.key, opt) == StyleOf(cs + [v], opt)
  {
    var cs' := cs + [v];
    assert cs'[..|cs|] == cs;
    assert cs'[|cs|] == v;
    assert AnyLeo(cs') <==> AnyLeo(cs) || GnssOf(v.key).None? by {
      if AnyLeo(cs) {
        var k :| 0 <= k < |cs| && GnssOf(cs[k].key).None?;
        assert cs'[k] == cs[k];
      }
      if AnyLeo(cs') && GnssOf(v.key).Some? {
        var k :| 0 <= k < |cs'| && GnssOf(cs'[k].key).None?;
        assert k < |cs| && cs[k] == cs'[k];
      }
    }
  }

  /** The chosen keys `cs` drawn one by one, each in the style of the keys
      up to and including it. */
  function Drawn(cs: seq<Visit>, ctx: Ctx): seq<SatPacket>
    decreases |cs|
  {
    if cs == [] then [] else Drawn(cs[..|cs| - 1], ctx) + [Packet(cs[|cs| - 1], StyleOf(cs, ctx.opt), ctx)]
  }

  lemma {:induction false} DrawnAt(cs: seq<Visit>, ctx: Ctx, k: nat)
    requires k < |cs|
    ensures |Drawn(cs, ctx)| == |cs|
    ensures Drawn(cs, ctx)[k] == Packet(cs[k], StyleOf(cs[..k + 1], ctx.opt), ctx)
    decreases |cs|
  {
    var pre := cs[..|cs| - 1];
    if k < |cs| - 1 {
      DrawnAt(pre, ctx, k);
      assert pre[..k + 1] == cs[..k + 1];
    } else {
      assert cs[..k + 1] == cs;
      if pre != [] {
        DrawnAt(pre, ctx, 0);
      }
    }
  }

  /** The loop's state is the style `StyleOf` reads off the chosen keys,
      and its packets are the chosen keys drawn one by one. */
  lemma {:induction false} RunStyle(vs: seq<Visit>, ctx: Ctx)
    ensures Run(vs, ctx) == Trace(Drawn(Chosen(vs, ctx.keywords), ctx), StyleOf(Chosen(vs, ctx.keywords), ctx.opt))
    decreases |vs|
  {
    if vs != [] {
      var pre := vs[..|vs| - 1];
      var v := vs[|vs| - 1];
      RunStyle(pre, ctx);
      var c := Chosen(pre, ctx.keywords);
      if Selected(v.key, ctx.keywords) {
        RestyleStyleOf(c, v, ctx.opt);
        var c' := c + [v];
        assert Chosen(vs, ctx.keywords) == c';
        assert c'[..|c'| - 1] == c;
        assert c'[|c'| - 1] == v;
      } else {
        assert Chosen(vs, ctx.keywords) == c + [] == c;
      }
    }
  }

  /** The filter keeps exactly the visits whose key is not "interval" and
      matches a keyword (or every such key when there is no keyword). */
  lemma {:induction false} ChosenIff(vs: seq<Visit>, keywords: Option<seq<string>>, v: Visit)
    ensures v in Chosen(vs, keywords) <==> v in vs && Selected(v.key, keywords)
    decreases |vs|
  {
    if vs != [] {
      var pre := vs[..|vs| - 1];
      ChosenIff(pre, keywords, v);
      assert vs == pre + [vs[|vs| - 1]];
    }
  }

  /** Every key of every orbit object is visited once the objects are
      walked in order. */
  lemma {:induction false} VisitsCover(val: seq<Sp3Object>, i: nat, j: nat)
    requires i < |val| && j < |val[i].keys|
    ensures Visit(val[i].keys[j], val[i]) in Visits(val)
    decreases |val|
  {
    var pre := val[..|val| - 1];
    if i < |val| - 1 {
      VisitsCover(pre, i, j);
    } else {
      assert VisitsOf(val[i])[j] == Visit(val[i].keys[j], val[i]);
    }
  }

  /** The packet drawn for the k-th chosen key, read off the chosen keys. */
  lemma ChosenPacket(val: seq<Sp3Object>, opt: Sp3Option, start: Instant, end: Instant,
                     keywords: Option<seq<string>>, k: nat)
    requires Sp3ToCzmlSpec(val, opt, start, end, keywords).Ok?
    ensures start.Time? && end.Time?
    ensures var ps := Sp3ToCzmlSpec(val, opt, start, end, keywords).value;
            var cs := Chosen(Visits(val), keywords);
            (k < |ps| <==> k < |cs|) &&
            (k < |cs| ==>
              ps[k] == Packet(cs[k], StyleOf(cs[..k + 1], opt), Ctx(opt, Span(start.ms, end.ms), keywords)))
  {
    var ctx := Ctx(opt, Span(start.ms, end.ms), keywords);
    var cs := Chosen(Visits(val), keywords);
    RunStyle(Visits(val), ctx);
    if k < |cs| {
      DrawnAt(cs, ctx, k);
    } else if cs != [] {
      DrawnAt(cs, ctx, 0);
    }
  }

  /** Packets follow the chosen keys one to one and in order: the k-th
      packet is named after the k-th chosen key, is available over the
      whole span, starts its orbit at the start instant, carries that key's
      series, and has a path exactly when the key is not a GNSS key. */
  lemma Sp3PacketsFollowKeys(val: seq<Sp3Object>, opt: Sp3Option, start: Instant, end: Instant,
                             keywords: Option<seq<string>>, k: nat)
    requires Sp3ToCzmlSpec(val, opt, start, end, keywords).Ok?
    ensures start.Time? && end.Time?
    ensures var ps := Sp3ToCzmlSpec(val, opt, start, end, keywords).value;
            var cs := Chosen(Visits(val), keywords);
            (k < |ps| <==> k < |cs|) &&
            (k < |cs| ==>
              ps[k].id == cs[k].key && ps[k].caption.text == cs[k].key &&
              ps[k].availability == Span(start.ms, end.ms) &&
              ps[k].position.epoch == start.ms &&
              ps[k].position.cartesian == Lookup(cs[k].content, cs[k].key) &&
              (ps[k].path.Some? <==> GnssOf(cs[k].key).None?))
  {
    ChosenPacket(val, opt, start, end, keywords, k);
  }

  /** A GNSS key is drawn at half size, with alpha 128 and its family's
      colour: as a point of size 5, or, once any non-GNSS key came before
      it, as a billboard of scale 0.025. */
  lemma Sp3GnssStyle(val: seq<Sp3Object>, opt: Sp3Option, start: Instant, end: Instant,
                     keywords: Option<seq<string>>, k: nat, f: Family)
    requires Sp3ToCzmlSpec(val, opt, start, end, keywords).Ok?
    requires k < |Chosen(Visits(val), keywords)|
    requires GnssOf(Chosen(Visits(val), keywords)[k].key) == Some(f)
    ensures var ps := Sp3ToCzmlSpec(val, opt, start, end, keywords).value;
            k < |ps| &&
            var p := ps[k];
            var cs := Chosen(Visits(val), keywords);
            p.caption.fillColor == WithAlpha(Palette(opt, f), 128) &&
            p.caption.scale == 1.0 &&
            p.shape == (if AnyLeo(cs[..k]) then BillboardShape(opt.leoBillboard, 0.025, true)
                        else PointShape(5.0, WithAlpha(Palette(opt, f), 128), true))
  {
    var cs := Chosen(Visits(val), keywords);
    ChosenPacket(val, opt, start, end, keywords, k);
    RestyleStyleOf(cs[..k], cs[k], opt);
    assert cs[..k] + [cs[k]] == cs[..k + 1];
    var st := StyleOf(cs[..k], opt);
    assert StyleOf(cs[..k + 1], opt) == st.(scale := 0.5, alpha := 128, color := Palette(opt, f));
  }

  /** A non-GNSS key is drawn as a billboard, in the style of the last GNSS
      key before it, or at full size in the LEO colour with alpha 200 when
      there is none; its path trails the orbit for 12800 seconds. */
  lemma Sp3LeoStyle(val: seq<Sp3Object>, opt: Sp3Option, start: Instant, end: Instant,
                    keywords: Option<seq<string>>, k: nat)
    requires Sp3ToCzmlSpec(val, opt, start, end, keywords).Ok?
    requires k < |Chosen(Visits(val), keywords)|
    requires GnssOf(Chosen(Visits(val), keywords)[k].key).None?
    ensures var ps := Sp3ToCzmlSpec(val, opt, start, end, keywords).value;
            k < |ps| &&
            var p := ps[k];
            var g := LastGnss(Chosen(Visits(val), keywords)[..k]);
            var fill := if g.Some? then WithAlpha(Palette(opt, g.value), 128)
                        else WithAlpha(ColorArray(opt.leoColor), 200);
            p.shape == BillboardShape(opt.leoBillboard, if g.Some? then 0.025 else 0.05, true) &&
            p.caption.fillColor == fill &&
            p.path == Some(Path([Toggle(Span(start.ms, end.ms), true)], 0.5, fill, 0, 12800, 240))
  {
    var cs := Chosen(Visits(val), keywords);
    ChosenPacket(val, opt, start, end, keywords, k);
    RestyleStyleOf(cs[..k], cs[k], opt);
    assert cs[..k] + [cs[k]] == cs[..k + 1];
  }
}
