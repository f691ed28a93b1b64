/**
  Pieces shared by the CZML packets both converters emit: an RGBA colour
  whose components may be NaN (written `null` by `JSON.stringify`), and one
  entry of an interval-valued boolean (`{ interval, boolean }`).
 */
module Czml {
  import opened JsRuntime
  import opened Dates
  import opened Gnss

  /** `{ rgba: [r, g, b, a] }`; `None` is NaN. */
  datatype Rgba = Rgba(r: Option<int>, g: Option<int>, b: Option<int>, a: int)

  /** `[color[0], color[1], color[2], alpha]`. */
  function WithAlpha(c: Rgb, alpha: int): Rgba {
    Rgba(c.r, c.g, c.b, alpha)
  }

  /** `{ interval: Iso(start) + '/' + Iso(end), boolean: visible }`. */
  datatype Toggle = Toggle(interval: Span, visible: bool)
}
