/** Colours, catalog tiles and rotated tiles (src/lib.rs). */
module Tiles {
  import opened Sides
  import opened Catalog

  datatype Option<T> = None | Some(value: T)

  /* --------------------------------------------------------------- Color */

  /** A 5-bit colour code; 0 is the exterior, 1..=22 the puzzle's colours. */
  newtype Color = x: int | 0 <= x < 32

  const EXTERIOR: Color := 0
  const BORDER_COLOR_MIN: Color := 1
  const BORDER_COLOR_MAX: Color := 5
  const INTERIOR_COLOR_MIN: Color := 6
  const INTERIOR_COLOR_MAX: Color := 22

  predicate IsBorder(c: Color)
  {
    c == EXTERIOR
  }

  predicate IsValidNonBorderColor(c: Color)
  {
    BORDER_COLOR_MIN <= c <= INTERIOR_COLOR_MAX
  }

  /** `Color::iter()`: the 23 colours 0..=22 in increasing order. */
  function ColorIter(): (r: seq<Color>)
    ensures |r| == 23
  {
    seq(23, i requires 0 <= i < 23 => i as Color)
  }

  function FromByteChar(b: Byte): Option<Color>
  {
    if BYTE_A <= b <= BYTE_W then Some((b - BYTE_A) as int as Color) else None
  }

  /** `Color::from_char`: a char that does not fit in a byte is rejected. */
  function FromChar(c: char): Option<Color>
  {
    if c as int < 256 then FromByteChar(c as int as Byte) else None
  }

  function ToByteChar(c: Color): Byte
  {
    (BYTE_A as int + c as int) as Byte
  }

  function ToChar(c: Color): char
  {
    ToByteChar(c) as int as char
  }

  /** `is_border` holds exactly of colour 0 and `is_valid_non_border_color`
      exactly of 1..=22; the two never hold together. */
  lemma ColorPredicates(c: Color)
    ensures IsBorder(c) <==> c as int == 0
    ensures IsValidNonBorderColor(c) <==> 1 <= c as int <= 22
    ensures !(IsBorder(c) && IsValidNonBorderColor(c))
  {
  }

  /** `from_byte_char` accepts exactly 'a'..='w', and `to_byte_char` inverts
      it in both directions on that range. */
  lemma FromByteCharRoundTrip(b: Byte, c: Color)
    ensures FromByteChar(b).Some? <==> 'a' as int <= b as int <= 'w' as int
    ensures FromByteChar(b).Some? ==> ToByteChar(FromByteChar(b).value) == b
    ensures c as int <= 22 <==> FromByteChar(ToByteChar(c)) == Some(c)
  {
  }

  /** The colours of `Color::iter()` render as the alphabet a..w. */
  lemma {:induction false} ColorIterRendering()
    ensures seq(23, i requires 0 <= i < 23 => ToChar(ColorIter()[i])) == "abcdefghijklmnopqrstuvw"
  {
    var r := seq(23, i requires 0 <= i < 23 => ToChar(ColorIter()[i]));
    var alphabet := "abcdefghijklmnopqrstuvw";
    forall i | 0 <= i < 23
      ensures r[i] == alphabet[i]
    {
      assert r[i] == (97 + i) as char;
    }
  }

  /* ---------------------------------------------------------------- Tile */

  /** `Tile::values()`: the 256 tiles in increasing order. */
  function TileValues(): (r: seq<Tile>)
    ensures |r| == 256 && forall i :: 0 <= i < 256 ==> r[i] as int == i
  {
    seq(256, i requires 0 <= i < 256 => i as Tile)
  }

  /** A catalog byte decoded as a colour, or EXTERIOR, the initial value of
      the parsed table, where it does not decode. */
  function DecodeCatalogByte(b: Byte): Color
  {
    match FromByteChar(b)
    case Some(c) => c
    case None => EXTERIOR
  }

  /** `Tile::PARSED_EDGES[index]`. */
  function ParsedEdge(index: int): Color
    requires 0 <= index < 1024
  {
    DecodeCatalogByte(CatalogByte(index))
  }

  /** The whole catalog string, `Tile::EDGES.as_bytes()`. */
  function CatalogBytes(): (r: seq<Byte>)
    ensures |r| == 1024
  {
    seq(1024, i requires 0 <= i < 1024 => CatalogByte(i))
  }

  /** The constant-evaluated loop that fills `Tile::PARSED_EDGES` from the
      byte string `edges`: start from 1024 EXTERIOR entries and overwrite
      each one whose byte decodes. Run on the catalog string it yields
      exactly the table `ParsedEdge`. */
  method BuildParsedEdges(edges: seq<Byte>) returns (parsed: array<Color>)
    requires |edges| == 1024
    ensures fresh(parsed) && parsed.Length == 1024
    ensures forall i :: 0 <= i < 1024 ==> parsed[i] == DecodeCatalogByte(edges[i])
    ensures edges == CatalogBytes() ==> forall i :: 0 <= i < 1024 ==> parsed[i] == ParsedEdge(i)
  {
    parsed := new Color[1024](_ => EXTERIOR);
    var index := 0;
    while index < 1024
      invariant 0 <= index <= 1024
      invariant forall i :: 0 <= i < index ==> parsed[i] == DecodeCatalogByte(edges[i])
      invariant forall i :: index <= i < 1024 ==> parsed[i] == EXTERIOR
    {
      match FromByteChar(edges[index]) {
        case Some(color) => parsed[index] := color;
        case None =>
      }
      index := index + 1;
    }
  }

  /** The catalog byte of a tile on `side`. */
  function SideByte(bytes: TileBytes, side: Side): Byte
  {
    match side
    case Right => bytes.right
    case Top => bytes.top
    case Left => bytes.left
    case Bottom => bytes.bottom
  }

  /** `Tile::color`: the tile's decoded catalog byte on `side`. */
  function TileColor(t: Tile, side: Side): Color
  {
    DecodeCatalogByte(SideByte(CatalogTile(t), side))
  }

  /** `Tile::color` reads entry `4 * tile + side` of the parsed table. */
  lemma {:induction false} TileColorIsParsedEdge(t: Tile, side: Side)
    ensures 0 <= 4 * t as int + SideToInt(side) < 1024
    ensures TileColor(t, side) == ParsedEdge(4 * t as int + SideToInt(side))
  {
    var index := 4 * t as int + SideToInt(side);
    assert index / 4 == t as int && index % 4 == SideToInt(side);
    assert CatalogByte(index) == SideByte(CatalogTile(t), side);
  }

  /** Every catalog byte decodes, so the EXTERIOR fallback of the parsed
      table is never taken: each tile colour is the decoding of its byte,
      and one of the 23 colours. */
  lemma {:induction false} TileColorDecodes(t: Tile, side: Side)
    ensures FromByteChar(SideByte(CatalogTile(t), side)) == Some(TileColor(t, side))
    ensures TileColor(t, side) as int <= 22
  {
    CatalogWellFormed(t);
    assert IsColorLetter(SideByte(CatalogTile(t), side));
  }

  /** A tile's colour letter on a side is its catalog byte there. */
  lemma {:induction false} TileColorLetter(t: Tile, side: Side)
    ensures ToChar(TileColor(t, side)) == SideByte(CatalogTile(t), side) as int as char
  {
    TileColorDecodes(t, side);
    FromByteCharRoundTrip(SideByte(CatalogTile(t), side), TileColor(t, side));
  }

  /** The source's `edge_colors` test: tile 0 reads j, a, a, r and tile 128
      reads h, b, a, f on the right, top, left and bottom sides. */
  lemma TileColorExamples()
    ensures ToChar(TileColor(0, Right)) == 'j' && ToChar(TileColor(0, Top)) == 'a'
    ensures ToChar(TileColor(0, Left)) == 'a' && ToChar(TileColor(0, Bottom)) == 'r'
    ensures ToChar(TileColor(128, Right)) == 'h' && ToChar(TileColor(128, Top)) == 'b'
    ensures ToChar(TileColor(128, Left)) == 'a' && ToChar(TileColor(128, Bottom)) == 'f'
  {
  }

  /* --------------------------------------------------------- RotatedTile */

  /** A catalog tile placed with a rotation. */
  datatype RotatedTile = RotatedTile(tile: Tile, rotation: Rotation)

  const ZERO: RotatedTile := RotatedTile(0, Identity)
  const MAX: RotatedTile := RotatedTile(255, QuarterTurnRight)

  /** `RotatedTile::color`: the tile's colour on the side rotated back by the
      tile's rotation. */
  function RotatedColor(rt: RotatedTile, side: Side): Color
  {
    TileColor(rt.tile, ReverseTransform(side, rt.rotation))
  }

  /** `RotatedTile + Rotation` (and `+=`): only the rotation changes. */
  function AddRotation(rt: RotatedTile, r: Rotation): (result: RotatedTile)
    ensures result.tile == rt.tile
  {
    rt.(rotation := Add(rt.rotation, r))
  }

  /** Four flags, one per side, true where the side is exterior. */
  datatype ExteriorMask = ExteriorMask(right: bool, top: bool, left: bool, bottom: bool)

  const EMPTY_MASK: ExteriorMask := ExteriorMask(false, false, false, false)

  function ExteriorMaskOf(rt: RotatedTile): ExteriorMask
  {
    ExteriorMask(
      RotatedColor(rt, Right) == EXTERIOR,
      RotatedColor(rt, Top) == EXTERIOR,
      RotatedColor(rt, Left) == EXTERIOR,
      RotatedColor(rt, Bottom) == EXTERIOR)
  }

  /** The flag of the mask for side `s`. */
  function MaskBit(m: ExteriorMask, s: Side): bool
  {
    match s
    case Right => m.right
    case Top => m.top
    case Left => m.left
    case Bottom => m.bottom
  }

  /** Rotating a tile carries each of its colours along: side `s` of the
      tile becomes side `transform(s, r)` of the rotated tile. */
  lemma {:induction false} RotatedColorCommutes(rt: RotatedTile, r: Rotation, s: Side)
    ensures RotatedColor(AddRotation(rt, r), Transform(s, r)) == RotatedColor(rt, s)
  {
    ReverseTransformShift(s, r, rt.rotation);
  }

  /** The mask bit for a side is set exactly when that side is EXTERIOR, and
      rotating the tile rotates the mask with it. */
  lemma {:induction false} ExteriorMaskRotates(rt: RotatedTile, r: Rotation, s: Side)
    ensures MaskBit(ExteriorMaskOf(rt), s) <==> RotatedColor(rt, s) == EXTERIOR
    ensures MaskBit(ExteriorMaskOf(AddRotation(rt, r)), Transform(s, r)) == MaskBit(ExteriorMaskOf(rt), s)
  {
    RotatedColorCommutes(rt, r, s);
  }

  /** The colour letters of a rotated tile in side order right, top, left,
      bottom. */
  function SideLetters(rt: RotatedTile): string
  {
    [ToChar(RotatedColor(rt, Right)), ToChar(RotatedColor(rt, Top)),
     ToChar(RotatedColor(rt, Left)), ToChar(RotatedColor(rt, Bottom))]
  }

  /** The source's `rotated_tile_colors` test: tile 0 reads "jaar", "rjaa",
      "arja" and "aarj" under the four rotations. */
  lemma {:induction false} RotatedColorExamples()
    ensures SideLetters(RotatedTile(0, Identity)) == "jaar"
    ensures SideLetters(RotatedTile(0, QuarterTurnLeft)) == "rjaa"
    ensures SideLetters(RotatedTile(0, HalfTurn)) == "arja"
    ensures SideLetters(RotatedTile(0, QuarterTurnRight)) == "aarj"
  {
    TileColorExamples();
  }

  /* ------------------------------------------------------------ Ordering */

  /** The derived order of `RotatedTile`: lexicographic on (tile, rotation). */
  predicate RotatedTileLe(a: RotatedTile, b: RotatedTile)
  {
    a.tile < b.tile || (a.tile == b.tile && RotationToInt(a.rotation) <= RotationToInt(b.rotation))
  }

  /** `Ord::min`: the first argument unless the second is strictly smaller. */
  function MinRotatedTile(a: RotatedTile, b: RotatedTile): RotatedTile
  {
    if RotatedTileLe(a, b) then a else b
  }

  /** The order is total, and MAX is its top element. */
  lemma RotatedTileOrder(a: RotatedTile, b: RotatedTile, c: RotatedTile)
    ensures RotatedTileLe(a, a)
    ensures RotatedTileLe(a, b) || RotatedTileLe(b, a)
    ensures RotatedTileLe(a, b) && RotatedTileLe(b, a) ==> a == b
    ensures RotatedTileLe(a, b) && RotatedTileLe(b, c) ==> RotatedTileLe(a, c)
    ensures RotatedTileLe(a, MAX)
  {
    if RotatedTileLe(a, b) && RotatedTileLe(b, a) {
      CodesRoundTrip(Right, a.rotation);
      CodesRoundTrip(Right, b.rotation);
    }
  }

  /** `min` returns one of its arguments, and one below both. */
  lemma MinRotatedTileIsMin(a: RotatedTile, b: RotatedTile)
    ensures MinRotatedTile(a, b) == a || MinRotatedTile(a, b) == b
    ensures RotatedTileLe(MinRotatedTile(a, b), a) && RotatedTileLe(MinRotatedTile(a, b), b)
  {
    RotatedTileOrder(a, b, a);
  }
}
