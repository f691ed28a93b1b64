/**
  Position samples and the flat position lists built from them.

  The Earth-fixed to inertial rotation (`computeFixedToIcrf`) works on
  floating-point numbers (Julian day, sidereal angle, cos and sin). It is
  kept symbolic: a `Sample` records the instant and the coordinate tokens as
  read. A cell such as `Scaled(X, s)` stands for the x component of the
  rotation of `s`, multiplied by 1000.
 */
module Frame {

  datatype Axis = X | Y | Z

  /** An Earth-fixed sample: a valid instant (milliseconds) and the three
      coordinate tokens, which `parseFloat` reads downstream. */
  datatype Sample = Sample(ms: int, x: string, y: string, z: string)

  /** One entry of a flat position list. */
  datatype Cell =
    | IsoTime(ms: int)             // `date.toISOString()`
    | Scaled(axis: Axis, s: Sample)  // `computeFixedToIcrf(...)[axis] * 1000` (orbit series)
    | Printed(axis: Axis, s: Sample) // `computeFixedToIcrf(...)[axis].toString()` (event positions)

  /** The axis of cell `i` of a group: x, y and z after the time. */
  function AxisAt(i: int): Axis {
    if i <= 1 then X else if i == 2 then Y else Z
  }

  /** The orbit-series group of a sample: time, then x, y, z in metres. */
  function ScaledGroup(s: Sample): (g: seq<Cell>)
    ensures |g| == 4 && g[0] == IsoTime(s.ms)
    ensures forall i :: 1 <= i < 4 ==> g[i].Scaled? && g[i].s == s && g[i].axis == AxisAt(i)
  {
    [IsoTime(s.ms), Scaled(X, s), Scaled(Y, s), Scaled(Z, s)]
  }

  /** The event-position row of a sample: ISO time, then x, y, z as text. */
  function PrintedRow(s: Sample): (g: seq<Cell>)
    ensures |g| == 4 && g[0] == IsoTime(s.ms)
    ensures forall i :: 1 <= i < 4 ==> g[i].Printed? && g[i].s == s && g[i].axis == AxisAt(i)
  {
    [IsoTime(s.ms), Printed(X, s), Printed(Y, s), Printed(Z, s)]
  }
}
