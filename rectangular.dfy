/** The sides and rotations of a 2:1 rectangle (src/rectangular.rs). A
    rectangle has only two symmetries, so its sides split into a vertical
    pair and a horizontal pair, each a 1-bit code, and its rotations are
    Identity and HalfTurn. Every operation here is the restriction of the
    corresponding square operation, which the lemmas below prove. */
module Rectangular {
  import S = Sides

  /** `RectangularSide`: a side together with the pair it belongs to. */
  datatype RectangularSide = Vertical(vertical: VerticalSide) | Horizontal(horizontal: HorizontalSide)

  datatype VerticalSide = Right | Left

  datatype HorizontalSide = Top | Bottom

  datatype RectangularRotation = Identity | HalfTurn

  function VerticalToInt(v: VerticalSide): nat
  {
    match v
    case Right => 0
    case Left => 1
  }

  function HorizontalToInt(h: HorizontalSide): nat
  {
    match h
    case Top => 0
    case Bottom => 1
  }

  function RectangularRotationToInt(r: RectangularRotation): nat
  {
    match r
    case Identity => 0
    case HalfTurn => 1
  }

  /** `RectangularRotation::iter()`. */
  const AllRectangularRotations: seq<RectangularRotation> := [Identity, HalfTurn]

  /** `VerticalSide::rotation_from_right`: the side's code read as a
      rotation. */
  function VerticalRotationFromRight(v: VerticalSide): RectangularRotation
  {
    match v
    case Right => Identity
    case Left => HalfTurn
  }

  /** `HorizontalSide::rotation_from_top`: the side's code read as a
      rotation. */
  function HorizontalRotationFromTop(h: HorizontalSide): RectangularRotation
  {
    match h
    case Top => Identity
    case Bottom => HalfTurn
  }

  /** `VerticalSide::to_square`. */
  function VerticalToSquare(v: VerticalSide): S.Side
  {
    match v
    case Right => S.Side.Right
    case Left => S.Side.Left
  }

  /** `HorizontalSide::to_square`. */
  function HorizontalToSquare(h: HorizontalSide): S.Side
  {
    match h
    case Top => S.Side.Top
    case Bottom => S.Side.Bottom
  }

  /** `VerticalSide + RectangularRotation`: a half turn swaps the pair. */
  function AddVertical(v: VerticalSide, r: RectangularRotation): VerticalSide
  {
    match r
    case Identity => v
    case HalfTurn => (match v case Right => Left case Left => Right)
  }

  /** `HorizontalSide + RectangularRotation`: a half turn swaps the pair. */
  function AddHorizontal(h: HorizontalSide, r: RectangularRotation): HorizontalSide
  {
    match r
    case Identity => h
    case HalfTurn => (match h case Top => Bottom case Bottom => Top)
  }

  /** `SideExt::to_rectangular`. */
  function ToRectangular(s: S.Side): RectangularSide
  {
    match s
    case Right => Vertical(Right)
    case Top => Horizontal(Top)
    case Left => Vertical(Left)
    case Bottom => Horizontal(Bottom)
  }

  /** `RectangularRotation::to_square`: twice the code, as a square
      rotation. */
  function RectangularToSquare(r: RectangularRotation): S.Rotation
  {
    S.RotationFromInt(2 * RectangularRotationToInt(r))
  }

  /** `RectangularRotation + RectangularRotation`. */
  function AddRectangular(a: RectangularRotation, b: RectangularRotation): RectangularRotation
  {
    match b
    case Identity => a
    case HalfTurn => (match a case Identity => HalfTurn case HalfTurn => Identity)
  }

  /* --------------------------------------------------------------- Lemmas */

  /** Each addition is wrapping 1-bit addition of the codes. */
  lemma AdditionsAreWrapping(v: VerticalSide, h: HorizontalSide, a: RectangularRotation, b: RectangularRotation)
    ensures VerticalToInt(AddVertical(v, a)) == (VerticalToInt(v) + RectangularRotationToInt(a)) % 2
    ensures HorizontalToInt(AddHorizontal(h, a)) == (HorizontalToInt(h) + RectangularRotationToInt(a)) % 2
    ensures RectangularRotationToInt(AddRectangular(a, b))
      == (RectangularRotationToInt(a) + RectangularRotationToInt(b)) % 2
  {
  }

  /** `to_square` embeds the rectangle's rotations in the square's: it is
      Identity or HalfTurn, injective, and turns addition into addition. */
  lemma ToSquareIsEmbedding(a: RectangularRotation, b: RectangularRotation)
    ensures RectangularToSquare(a) == (if a == Identity then S.Rotation.Identity else S.Rotation.HalfTurn)
    ensures RectangularToSquare(a) == RectangularToSquare(b) ==> a == b
    ensures RectangularToSquare(AddRectangular(a, b)) == S.Add(RectangularToSquare(a), RectangularToSquare(b))
  {
  }

  /** Adding a rectangular rotation to a side is transforming the square
      side by the embedded rotation. */
  lemma AddIsSquareTransform(v: VerticalSide, h: HorizontalSide, r: RectangularRotation)
    ensures VerticalToSquare(AddVertical(v, r)) == S.Transform(VerticalToSquare(v), RectangularToSquare(r))
    ensures HorizontalToSquare(AddHorizontal(h, r)) == S.Transform(HorizontalToSquare(h), RectangularToSquare(r))
  {
  }

  /** `rotation_from_right` carries Right onto the side, and
      `rotation_from_top` carries Top onto it, exactly as the square
      `rotation_from_right` does after embedding. */
  lemma RotationFromCarries(v: VerticalSide, h: HorizontalSide)
    ensures AddVertical(Right, VerticalRotationFromRight(v)) == v
    ensures AddHorizontal(Top, HorizontalRotationFromTop(h)) == h
    ensures RectangularToSquare(VerticalRotationFromRight(v)) == S.RotationFromRight(VerticalToSquare(v))
  {
  }

  /** `to_rectangular` and the two `to_square` functions are inverse. */
  lemma ToRectangularRoundTrip(s: S.Side, v: VerticalSide, h: HorizontalSide)
    ensures ToRectangular(VerticalToSquare(v)) == Vertical(v)
    ensures ToRectangular(HorizontalToSquare(h)) == Horizontal(h)
    ensures match ToRectangular(s)
      case Vertical(v') => VerticalToSquare(v') == s
      case Horizontal(h') => HorizontalToSquare(h') == s
  {
  }
}
