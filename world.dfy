/**
 * The static world every flock lives in: the scoring zone of the sheep pen,
 * the fences (polylines the sheep must not cross), the nudge that keeps a
 * sheep inside the pen's confines, and the configured depth of the dog's
 * vision of sheep.
 */
module World {
  import opened MathUtils

  /** DogSensorOfSheepVisionDepthOfVisionInPixels. */
  const SheepVisionDepth: real := 140.0

  /** A triangle as the sensors record it: the dog's position and the two far corners. */
  datatype Triangle = Triangle(apex: Point, left: Point, right: Point)

  /** A System.Drawing.RectangleF. */
  datatype Rect = Rect(x: real, y: real, width: real, height: real)

  /**
   * RectangleF.Contains: the left and top edges are inside, the right and
   * bottom edges are not.
   */
  predicate Contains(r: Rect, p: Point)
  {
    r.x <= p.x < r.x + r.width && r.y <= p.y < r.y + r.height
  }

  /** A fence polyline: consecutive points are joined by a straight segment. */
  type Polyline = seq<Point>

  /** Fence `f` has a segment starting at point `i`. */
  predicate IsSegment(fences: seq<Polyline>, f: int, i: int)
  {
    0 <= f < |fences| && 0 <= i < |fences[f]| - 1
  }

  /** The segment from point `i` to point `i + 1` of fence `f` meets the segment `a`-`b`. */
  predicate SegmentCrosses(fences: seq<Polyline>, f: int, i: int, a: Point, b: Point)
    requires IsSegment(fences, f, i)
  {
    GetLineIntersection(fences[f][i], fences[f][i + 1], a, b).hit
  }

  /**
   * EnforceBoundary: a push of 4 back towards the pen on each axis where the
   * sheep is within 5 of an edge. On the right and bottom edges the test is
   * made second, so in a pen narrower than 10 it wins.
   */
  function EnforceBoundary(position: Point, penWidth: int, penHeight: int): (push: Point)
    ensures position.x < 5.0 && position.x <= (penWidth - 5) as real ==> push.x == 4.0
    ensures (penWidth - 5) as real < position.x ==> push.x == -4.0
    ensures 5.0 <= position.x <= (penWidth - 5) as real ==> push.x == 0.0
    ensures position.y < 5.0 && position.y <= (penHeight - 5) as real ==> push.y == 4.0
    ensures (penHeight - 5) as real < position.y ==> push.y == -4.0
    ensures 5.0 <= position.y <= (penHeight - 5) as real ==> push.y == 0.0
  {
    var px := if position.x > (penWidth - 5) as real then -4.0 else if position.x < 5.0 then 4.0 else 0.0;
    var py := if position.y > (penHeight - 5) as real then -4.0 else if position.y < 5.0 then 4.0 else 0.0;
    Point(px, py)
  }

  /** A sheep outside the margin on some axis is pushed strictly back towards the pen on it. */
  lemma BoundaryPushesInwards(position: Point, penWidth: int, penHeight: int)
    requires 10 <= penWidth && 10 <= penHeight
    ensures var p := Add(position, EnforceBoundary(position, penWidth, penHeight));
            (position.x < 5.0 ==> position.x < p.x) && ((penWidth - 5) as real < position.x ==> p.x < position.x) &&
            (position.y < 5.0 ==> position.y < p.y) && ((penHeight - 5) as real < position.y ==> p.y < position.y)
  {
  }
}
