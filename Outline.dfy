/** The geometry and colour of the marker drawn for one sensing cell: the
    closed quadrilateral outline built from the cell's two half-side
    vectors, and the colour taken from the normalised pressure. */
module Outline {
  import opened Messages

  /** The colour map of fingertip_pressure.colormap: a normalised pressure
      to (red, green, blue). Its curve is not part of this model. */
  type Colormap = real -> (real, real, real)

  /** Readings are divided by this before the colour map is applied. */
  const FullScale: real := 6000.0

  /** Line width of every outline. */
  const LineWidth: real := 0.001

  function Plus(a: Vector3, b: Vector3): Vector3 {
    Vector3(a.x + b.x, a.y + b.y, a.z + b.z)
  }

  function Minus(a: Vector3, b: Vector3): Vector3 {
    Vector3(a.x - b.x, a.y - b.y, a.z - b.z)
  }

  function Neg(a: Vector3): Vector3 {
    Vector3(-a.x, -a.y, -a.z)
  }

  function Half(a: Vector3): Vector3 {
    Vector3(a.x / 2.0, a.y / 2.0, a.z / 2.0)
  }

  /** An outline as the node draws it: five points, the last repeating the
      first, each corner opposite its negation about the cell center. */
  predicate IsOutline(pts: seq<Vector3>) {
    |pts| == 5 && pts[4] == pts[0] && pts[2] == Neg(pts[0]) && pts[3] == Neg(pts[1])
  }

  /** The corners h1+h2, h1-h2, -h1-h2, -h1+h2, closed by repeating the
      first, as offsets from the cell center. */
  function Corners(h1: Vector3, h2: Vector3): (pts: seq<Vector3>)
    ensures IsOutline(pts)
    ensures Minus(pts[0], pts[1]) == Plus(h2, h2)
    ensures Minus(pts[0], pts[3]) == Plus(h1, h1)
    ensures Plus(Plus(pts[0], pts[1]), Plus(pts[2], pts[3])) == Origin
  {
    var p0 := Plus(h1, h2);
    var p1 := Minus(h1, h2);
    var p2 := Minus(Neg(h1), h2);
    var p3 := Plus(Neg(h1), h2);
    [p0, p1, p2, p3, p0]
  }

  /** Recovers the two half-side vectors from the first two corners; the
      inverse of Corners on every outline. */
  function HalfSides(pts: seq<Vector3>): (h: (Vector3, Vector3))
    requires |pts| >= 2
    ensures IsOutline(pts) ==> Corners(h.0, h.1) == pts
  {
    (Half(Plus(pts[0], pts[1])), Half(Minus(pts[0], pts[1])))
  }

  lemma {:induction false} HalfSidesOfCorners(h1: Vector3, h2: Vector3)
    ensures HalfSides(Corners(h1, h2)) == (h1, h2)
  {
  }

  /** Opaque colour for a raw reading: the colour map at value / 6000. */
  function Tint(value: int, colormap: Colormap): ColorRGBA {
    var rgb := colormap(value as real / FullScale);
    ColorRGBA(rgb.0, rgb.1, rgb.2, 1.0)
  }

  /** The marker published for one cell, as a value. */
  function CellMarker(frameId: string, stamp: Time, id: int, center: Vector3,
                      h1: Vector3, h2: Vector3, value: int, colormap: Colormap): Marker
  {
    Marker(
      Header(frameId, stamp),
      frameId + "/line",
      LineStrip,
      ActionAdd,
      id,
      Pose(center, Quaternion(0.0, 0.0, 0.0, 1.0)),
      Vector3(LineWidth, 0.0, 0.0),
      Tint(value, colormap),
      Corners(h1, h2))
  }

  /** The worked example: unit half-sides along x and y and a reading of
      3000 give the square with corners (±1, ±1, 0) and the colour at 0.5. */
  lemma ExampleCell(colormap: Colormap)
    ensures Corners(Vector3(1.0, 0.0, 0.0), Vector3(0.0, 1.0, 0.0))
         == [Vector3(1.0, 1.0, 0.0), Vector3(1.0, -1.0, 0.0), Vector3(-1.0, -1.0, 0.0),
             Vector3(-1.0, 1.0, 0.0), Vector3(1.0, 1.0, 0.0)]
    ensures Tint(3000, colormap) == ColorRGBA(colormap(0.5).0, colormap(0.5).1, colormap(0.5).2, 1.0)
  {
    assert 3000 as real / FullScale == 0.5;
  }
}
