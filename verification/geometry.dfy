/**
 * Value types shared by the pad, its edit command and the drill file generator.
 * LibrePCB measures lengths as integer nanometre counts, so all geometry here is
 * exact integer arithmetic (the 64-bit range of the source is not modelled).
 */
module Geometry {

  /** A signed length in nanometres. */
  type Length = int

  /** A length that is strictly greater than zero (pad sizes, drill sizes, tool diameters). */
  type PositiveLength = l: Length | l > 0 witness 1

  /** A point (or a displacement) in the board plane. */
  datatype Point = Point(x: Length, y: Length) {
    /** Component-wise sum, the `Point::operator+` of the source. */
    function Plus(delta: Point): Point {
      Point(x + delta.x, y + delta.y)
    }
  }

  /** An angle as a count of microdegrees. Its arithmetic is not modelled here. */
  datatype Angle = Angle(microdegrees: int)

  /** An opaque identifier of a package pad. */
  datatype Uuid = Uuid(text: string)

  /** Concatenation regroups freely; proofs about appended output call this to regroup. */
  lemma Associates<T>(a: seq<T>, b: seq<T>, c: seq<T>)
    ensures a + (b + c) == (a + b) + c
  {
  }

  /**
   * An outline as built by the `Path` factory functions. Only which factory was
   * called and with which size is kept; the vertices are not modelled.
   */
  datatype Path =
    | Empty
    | Obround(width: PositiveLength, height: PositiveLength)
    | CenteredRect(width: PositiveLength, height: PositiveLength)
    | Octagon(width: PositiveLength, height: PositiveLength)
}
