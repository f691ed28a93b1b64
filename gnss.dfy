/**
  The constellation table of the orbit converter (lib/sp3.ts): the
  family-to-prefix map `GNSSId`, its reverse `IdGNSS`, built once by a loop
  over the families, and the `#rrggbb` colour reader `getColorArray`.
 */
module Gnss {
  import opened JsRuntime

  datatype Family = GPS | BDS | GAL | GLO

  /** The families in the declaration order of `GNSSId`. */
  const Families: seq<Family> := [GPS, BDS, GAL, GLO]

  /** `GNSSId[family]`: the first letter of that family's satellite ids. */
  function GnssId(f: Family): char {
    match f
    case GPS => 'G'
    case BDS => 'C'
    case GAL => 'E'
    case GLO => 'R'
  }

  /** The map left by `IdGNSS.set(GNSSId[name], name)` for each family of
      `fs` in turn (a later family overwrites an earlier one). */
  function Inverse(fs: seq<Family>): map<char, Family>
    decreases |fs|
  {
    if fs == [] then map[]
    else Inverse(fs[..|fs| - 1])[GnssId(fs[|fs| - 1]) := fs[|fs| - 1]]
  }

  /** `IdGNSS.get(c)`. */
  function IdGnss(c: char): Option<Family> {
    var m := Inverse(Families);
    if c in m then Some(m[c]) else None
  }

  /** `IdGNSS` is exactly the inverse of `GNSSId`: G, C, E and R name GPS,
      BDS, GAL and GLO, and every other letter names nothing. */
  lemma IdGnssInverse(c: char, f: Family)
    ensures IdGnss(c) == Some(f) <==> GnssId(f) == c
    ensures IdGnss(c).None? <==> c !in {'G', 'C', 'E', 'R'}
  {
    assert [GPS][..0] == [];
    assert Inverse([GPS]) == map['G' := GPS];
    assert [GPS, BDS][..1] == [GPS];
    assert Inverse([GPS, BDS]) == map['G' := GPS, 'C' := BDS];
    assert [GPS, BDS, GAL][..2] == [GPS, BDS];
    assert Inverse([GPS, BDS, GAL]) == map['G' := GPS, 'C' := BDS, 'E' := GAL];
    assert Families[..3] == [GPS, BDS, GAL];
    assert Inverse(Families) == map['G' := GPS, 'C' := BDS, 'E' := GAL, 'R' := GLO];
  }

  /** The module-level loop that fills `IdGNSS`. */
  method BuildIdGnss() returns (m: map<char, Family>)
    ensures forall f :: GnssId(f) in m && m[GnssId(f)] == f
    ensures forall c :: c in m <==> IdGnss(c).Some?
    ensures forall c :: c in m ==> IdGnss(c) == Some(m[c])
  {
    m := map[];
    for i := 0 to |Families|
      invariant m == Inverse(Families[..i])
    {
      assert Families[..i + 1][..i] == Families[..i];
      m := m[GnssId(Families[i]) := Families[i]];
    }
    assert Families[..|Families|] == Families;
    forall f ensures GnssId(f) in m && m[GnssId(f)] == f {
      IdGnssInverse(GnssId(f), f);
    }
  }

  /** The three components `getColorArray` returns; `None` is NaN. */
  datatype Rgb = Rgb(r: Option<int>, g: Option<int>, b: Option<int>)

  /** `getColorArray(hex)`: `parseInt('0x' + hex.slice(1, 3))`, and the same
      for characters 3-4 and 5-6. */
  function ColorArray(hex: string): Rgb {
    Rgb(ParseInt("0x" + Slice(hex, 1, 3)),
        ParseInt("0x" + Slice(hex, 3, 5)),
        ParseInt("0x" + Slice(hex, 5, 7)))
  }

  /** For `#rrggbb` with hexadecimal digits, each component is the byte its
      two digits spell. */
  lemma ColorArrayOfHex(hex: string)
    requires |hex| >= 7 && forall k :: 1 <= k < 7 ==> IsHex(hex[k])
    ensures ColorArray(hex) == Rgb(Some(16 * DigitOf(hex[1]) + DigitOf(hex[2])),
                                   Some(16 * DigitOf(hex[3]) + DigitOf(hex[4])),
                                   Some(16 * DigitOf(hex[5]) + DigitOf(hex[6])))
    ensures 0 <= 16 * DigitOf(hex[1]) + DigitOf(hex[2]) <= 255
    ensures 0 <= 16 * DigitOf(hex[3]) + DigitOf(hex[4]) <= 255
    ensures 0 <= 16 * DigitOf(hex[5]) + DigitOf(hex[6]) <= 255
  {
    assert Slice(hex, 1, 3) == [hex[1], hex[2]];
    assert Slice(hex, 3, 5) == [hex[3], hex[4]];
    assert Slice(hex, 5, 7) == [hex[5], hex[6]];
    HexPairParse(hex[1], hex[2]);
    HexPairParse(hex[3], hex[4]);
    HexPairParse(hex[5], hex[6]);
  }
}
