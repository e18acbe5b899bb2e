/** Board positions and the four movement offsets (src/coordinate.rs). */
module Coordinates {

  /** A board position or a displacement; screen coordinates, so y grows downwards. */
  datatype Coordinate = Coordinate(x: int, y: int)

  /** Component-wise sum. */
  function Add(a: Coordinate, b: Coordinate): Coordinate
  {
    Coordinate(a.x + b.x, a.y + b.y)
  }

  /** Component-wise negation. */
  function Negate(a: Coordinate): Coordinate
  {
    Coordinate(-a.x, -a.y)
  }

  function Abs(n: int): nat
  {
    if n < 0 then -n else n
  }

  /** Manhattan distance between two positions. */
  function Distance(a: Coordinate, b: Coordinate): nat
  {
    Abs(a.x - b.x) + Abs(a.y - b.y)
  }

  /** A displacement of exactly one cell along one axis: |x| + |y| == 1. */
  predicate IsUnitStep(d: Coordinate)
  {
    || (d.x == 0 && (d.y == 1 || d.y == -1))
    || (d.y == 0 && (d.x == 1 || d.x == -1))
  }

  /** The unit-step test is the Manhattan-length-one test. */
  lemma UnitStepIsManhattanOne(d: Coordinate)
    ensures IsUnitStep(d) <==> Abs(d.x) + Abs(d.y) == 1
  {
  }

  function UpOffset(): (d: Coordinate)
    ensures IsUnitStep(d) && d.x == 0 && d.y < 0
  {
    Coordinate(0, -1)
  }

  function DownOffset(): (d: Coordinate)
    ensures IsUnitStep(d) && d.x == 0 && d.y > 0
  {
    Coordinate(0, 1)
  }

  function LeftOffset(): (d: Coordinate)
    ensures IsUnitStep(d) && d.x < 0 && d.y == 0
  {
    Coordinate(-1, 0)
  }

  function RightOffset(): (d: Coordinate)
    ensures IsUnitStep(d) && d.x > 0 && d.y == 0
  {
    Coordinate(1, 0)
  }

  /** Up undoes down and left undoes right. */
  lemma OffsetsAreOpposite()
    ensures DownOffset() == Negate(UpOffset())
    ensures RightOffset() == Negate(LeftOffset())
  {
  }

  /** The four offsets are pairwise different. */
  lemma OffsetsAreDistinct()
    ensures UpOffset() != DownOffset() && UpOffset() != LeftOffset() && UpOffset() != RightOffset()
    ensures DownOffset() != LeftOffset() && DownOffset() != RightOffset()
    ensures LeftOffset() != RightOffset()
  {
  }

  /** A unit step always changes the position, by Manhattan distance one. */
  lemma UnitStepMovesOneCell(p: Coordinate, d: Coordinate)
    requires IsUnitStep(d)
    ensures Distance(Add(p, d), p) == 1
    ensures Add(p, d) != p
  {
  }
}
