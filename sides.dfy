/** Sides of a square cell and the quarter-turn rotations acting on them
    (src/lib.rs). Both are 2-bit codes, and rotating a side, undoing a
    rotation or composing two rotations is wrapping 2-bit arithmetic on the
    codes. The operations are written here as tables of quarter turns; the
    lemmas `TransformIsWrappingAdd` and `AddIsWrappingAdd` tie each table to
    the modular arithmetic it stands for. */
module Sides {

  /* ---------------------------------------------------------------- Side */

  /** The four sides of a square cell, in the order of their 2-bit codes. */
  datatype Side = Right | Top | Left | Bottom

  function SideToInt(s: Side): (n: nat)
    ensures n < 4
  {
    match s
    case Right => 0
    case Top => 1
    case Left => 2
    case Bottom => 3
  }

  /** The side with 2-bit code `n`. */
  function SideFromInt(n: int): (s: Side)
    requires 0 <= n < 4
    ensures SideToInt(s) == n
  {
    if n == 0 then Right else if n == 1 then Top else if n == 2 then Left else Bottom
  }

  /** `Side::iter()`: the sides in code order. */
  const AllSides: seq<Side> := [Right, Top, Left, Bottom]

  /** The side one counter-clockwise quarter turn further on. */
  function TurnLeft(s: Side): Side
  {
    match s
    case Right => Top
    case Top => Left
    case Left => Bottom
    case Bottom => Right
  }

  /* ------------------------------------------------------------ Rotation */

  /** Counter-clockwise quarter turns, in the order of their 2-bit codes. */
  datatype Rotation = Identity | QuarterTurnLeft | HalfTurn | QuarterTurnRight

  function RotationToInt(r: Rotation): (n: nat)
    ensures n < 4
  {
    match r
    case Identity => 0
    case QuarterTurnLeft => 1
    case HalfTurn => 2
    case QuarterTurnRight => 3
  }

  /** The rotation with 2-bit code `n`. */
  function RotationFromInt(n: int): (r: Rotation)
    requires 0 <= n < 4
    ensures RotationToInt(r) == n
  {
    if n == 0 then Identity else if n == 1 then QuarterTurnLeft else if n == 2 then HalfTurn else QuarterTurnRight
  }

  /** `Rotation::iter()`: the rotations in code order. */
  const AllRotations: seq<Rotation> := [Identity, QuarterTurnLeft, HalfTurn, QuarterTurnRight]

  /** The rotation one quarter turn further counter-clockwise. */
  function TurnRotation(r: Rotation): Rotation
  {
    match r
    case Identity => QuarterTurnLeft
    case QuarterTurnLeft => HalfTurn
    case HalfTurn => QuarterTurnRight
    case QuarterTurnRight => Identity
  }

  /* ----------------------------------------------------------- Operations */

  /** `Side::rotation_from_right`: the side's code read as a rotation. */
  function RotationFromRight(s: Side): Rotation
  {
    RotationFromInt(SideToInt(s))
  }

  /** `Side::transform`: the side turned counter-clockwise by `r`. */
  function Transform(s: Side, r: Rotation): Side
  {
    match r
    case Identity => s
    case QuarterTurnLeft => TurnLeft(s)
    case HalfTurn => TurnLeft(TurnLeft(s))
    case QuarterTurnRight => TurnLeft(TurnLeft(TurnLeft(s)))
  }

  /** `Side::reverse_transform`: the side turned back clockwise by `r`. */
  function ReverseTransform(s: Side, r: Rotation): Side
  {
    match r
    case Identity => s
    case QuarterTurnLeft => TurnLeft(TurnLeft(TurnLeft(s)))
    case HalfTurn => TurnLeft(TurnLeft(s))
    case QuarterTurnRight => TurnLeft(s)
  }

  /** `Rotation + Rotation` (and `+=`, which assigns the same value). */
  function Add(a: Rotation, b: Rotation): Rotation
  {
    match b
    case Identity => a
    case QuarterTurnLeft => TurnRotation(a)
    case HalfTurn => TurnRotation(TurnRotation(a))
    case QuarterTurnRight => TurnRotation(TurnRotation(TurnRotation(a)))
  }

  /* --------------------------------------------------------------- Lemmas */

  /** The codes are a bijection between sides (and rotations) and 0..4. */
  lemma CodesRoundTrip(s: Side, r: Rotation)
    ensures SideFromInt(SideToInt(s)) == s
    ensures RotationFromInt(RotationToInt(r)) == r
  {
  }

  /** `transform` is wrapping addition of the 2-bit codes and
      `reverse_transform` wrapping subtraction (Dafny's `%` is Euclidean,
      so a negative difference wraps exactly as a `u2` does). */
  lemma TransformIsWrappingAdd(s: Side, r: Rotation)
    ensures SideToInt(Transform(s, r)) == (SideToInt(s) + RotationToInt(r)) % 4
    ensures SideToInt(ReverseTransform(s, r)) == (SideToInt(s) - RotationToInt(r)) % 4
  {
  }

  /** Rotation addition is wrapping addition of the 2-bit codes. */
  lemma AddIsWrappingAdd(a: Rotation, b: Rotation)
    ensures RotationToInt(Add(a, b)) == (RotationToInt(a) + RotationToInt(b)) % 4
  {
  }

  /** The complete table of the source's `rotate_side` test. */
  lemma TransformTable()
    ensures Transform(Right, Identity) == Right && Transform(Top, Identity) == Top
    ensures Transform(Left, Identity) == Left && Transform(Bottom, Identity) == Bottom
    ensures Transform(Right, QuarterTurnLeft) == Top && Transform(Top, QuarterTurnLeft) == Left
    ensures Transform(Left, QuarterTurnLeft) == Bottom && Transform(Bottom, QuarterTurnLeft) == Right
    ensures Transform(Right, HalfTurn) == Left && Transform(Top, HalfTurn) == Bottom
    ensures Transform(Left, HalfTurn) == Right && Transform(Bottom, HalfTurn) == Top
    ensures Transform(Right, QuarterTurnRight) == Bottom && Transform(Top, QuarterTurnRight) == Right
    ensures Transform(Left, QuarterTurnRight) == Top && Transform(Bottom, QuarterTurnRight) == Left
  {
  }

  /** `reverse_transform` undoes `transform` and vice versa. */
  lemma TransformInverse(s: Side, r: Rotation)
    ensures ReverseTransform(Transform(s, r), r) == s
    ensures Transform(ReverseTransform(s, r), r) == s
  {
  }

  /** Rotation addition is addition modulo 4: Identity is neutral, every
      rotation has an inverse, and the operation is commutative and
      associative. */
  lemma RotationGroup(a: Rotation, b: Rotation, c: Rotation)
    ensures Add(a, Identity) == a && Add(Identity, a) == a
    ensures Add(QuarterTurnLeft, QuarterTurnRight) == Identity && Add(HalfTurn, HalfTurn) == Identity
    ensures Add(a, b) == Add(b, a)
    ensures Add(Add(a, b), c) == Add(a, Add(b, c))
  {
  }

  /** Transforming by a sum of rotations is transforming twice. */
  lemma TransformAdd(s: Side, a: Rotation, b: Rotation)
    ensures Transform(s, Add(a, b)) == Transform(Transform(s, a), b)
  {
  }

  /** Turning a side and the rotation it is read back through by the same
      amount changes nothing: a rotated tile shows on `transform(s, r)` what
      it showed on `s` before the extra turn `r`. */
  lemma ReverseTransformShift(s: Side, r: Rotation, c: Rotation)
    ensures ReverseTransform(Transform(s, r), Add(c, r)) == ReverseTransform(s, c)
  {
  }

  /** `rotation_from_right(s)` carries Right onto `s`. */
  lemma RotationFromRightCarriesRight(s: Side)
    ensures Transform(Right, RotationFromRight(s)) == s
  {
  }
}
