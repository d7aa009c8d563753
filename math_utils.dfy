/**
 * Geometry and small numeric helpers of the program (Utilities/MathUtils.cs):
 * clamping, angle wrapping, the mode of a list, points in triangles, segment
 * intersection and projection onto a segment.
 */
module MathUtils {
  import opened Numerics

  /** A System.Drawing.PointF. */
  datatype Point = Point(x: real, y: real)

  function Add(p: Point, q: Point): Point { Point(p.x + q.x, p.y + q.y) }

  function Sub(p: Point, q: Point): Point { Point(p.x - q.x, p.y - q.y) }

  function Scale(k: real, p: Point): Point { Point(k * p.x, k * p.y) }

  function Dot(p: Point, q: Point): real { p.x * q.x + p.y * q.y }

  /** Clamp: values below `min` become `min`, values above `max` become `max`. */
  function Clamp(val: real, min: real, max: real): (r: real)
    ensures r == val || r == min || r == max
    ensures min <= max ==> min <= r <= max
    ensures min <= val <= max ==> r == val
    ensures val < min ==> r == min
  {
    if val < min then min else if val > max then max else val
  }

  /**
   * Clamp360: adds 360 while the angle is negative, then subtracts 360 while
   * it exceeds 360. The result differs from the input by a whole number of
   * turns and lies in [0, 360]: in [0, 360) when the input was negative, in
   * (0, 360] when it exceeded 360, and it is the input itself otherwise.
   */
  method Clamp360(val: real) returns (r: real)
    ensures 0.0 <= r <= 360.0
    ensures IsWholeTurns(r - val)
    ensures val < 0.0 ==> r < 360.0
    ensures 360.0 < val ==> 0.0 < r
    ensures 0.0 <= val <= 360.0 ==> r == val
    ensures r == Wrapped360(val)
  {
    r := val;
    ghost var turns: int := 0;
    while r < 0.0
      invariant r == val + 360.0 * turns as real
      invariant val < 0.0 ==> r < 360.0
      invariant 0.0 <= val ==> r == val
      decreases (-r).Floor
    {
      r := r + 360.0;
      turns := turns + 1;
    }
    while r > 360.0
      invariant 0.0 <= r
      invariant r == val + 360.0 * turns as real
      invariant val < 0.0 ==> r < 360.0
      invariant 360.0 < val ==> 0.0 < r
      invariant 0.0 <= val <= 360.0 ==> r == val
      decreases r.Floor
    {
      r := r - 360.0;
      turns := turns - 1;
    }
    assert (r - val) / 360.0 == turns as real;
    Clamp360Unique(val, r, Wrapped360(val));
  }

  /** `r` is what Clamp360 returns for `val`: the properties its contract lists. */
  predicate IsClamp360(val: real, r: real)
  {
    0.0 <= r <= 360.0 && IsWholeTurns(r - val) &&
    (val < 0.0 ==> r < 360.0) && (360.0 < val ==> 0.0 < r) && (0.0 <= val <= 360.0 ==> r == val)
  }

  /** Whole numbers of turns. */
  lemma WholeTurnsOfInt(k: int)
    ensures IsWholeTurns(360.0 * k as real)
  {
    assert 360.0 * k as real / 360.0 == k as real;
  }

  /** What Clamp360 returns for `val`, in closed form: the remaining part of a turn, with 360 for positive whole turns. */
  function Wrapped360(val: real): (r: real)
    ensures IsClamp360(val, r)
  {
    if val < 0.0 then
      var k := (val / 360.0).Floor;
      WholeTurnsOfInt(-k);
      val - 360.0 * k as real
    else if 360.0 < val then
      var k := (-val / 360.0).Floor;
      WholeTurnsOfInt(k + 1);
      val + 360.0 * k as real + 360.0
    else
      WholeTurnsOfInt(0);
      val
  }

  /** Clamp360's contract leaves it one result for each input. */
  lemma {:induction false} Clamp360Unique(val: real, r1: real, r2: real)
    requires IsClamp360(val, r1) && IsClamp360(val, r2)
    ensures r1 == r2
  {
    var a := ((r1 - val) / 360.0).Floor;
    var b := ((r2 - val) / 360.0).Floor;
    assert r1 - r2 == 360.0 * (a - b) as real;
  }

  /** `d` is a whole number of turns of 360 degrees. */
  predicate IsWholeTurns(d: real)
  {
    (d / 360.0).Floor as real == d / 360.0
  }

  /** Number of occurrences of `x` in `s`. */
  function Occurrences(s: seq<int>, x: int): (n: nat)
    ensures n <= |s|
  {
    if s == [] then 0 else Occurrences(s[..|s| - 1], x) + (if s[|s| - 1] == x then 1 else 0)
  }

  /**
   * The distinct elements of `s` in order of first occurrence: the order in
   * which a Dictionary that only ever had keys added enumerates them.
   */
  function Distinct(s: seq<int>): seq<int>
  {
    if s == [] then []
    else if s[|s| - 1] in s[..|s| - 1] then Distinct(s[..|s| - 1])
    else Distinct(s[..|s| - 1]) + [s[|s| - 1]]
  }

  lemma {:induction false} OccurrencesPositive(s: seq<int>, x: int)
    ensures 0 < Occurrences(s, x) <==> x in s
  {
    if s != [] {
      OccurrencesPositive(s[..|s| - 1], x);
      assert s == s[..|s| - 1] + [s[|s| - 1]];
    }
  }

  lemma {:induction false} DistinctHasSameElements(s: seq<int>)
    ensures forall x :: x in Distinct(s) <==> x in s
  {
    if s != [] {
      DistinctHasSameElements(s[..|s| - 1]);
      assert s == s[..|s| - 1] + [s[|s| - 1]];
    }
  }

  lemma {:induction false} DistinctNonEmpty(s: seq<int>)
    requires s != []
    ensures 0 < |Distinct(s)|
  {
    if s[|s| - 1] in s[..|s| - 1] {
      DistinctNonEmpty(s[..|s| - 1]);
    }
  }

  /**
   * The counting pass of GetMode: a dictionary from each element to its
   * number of occurrences, with its keys in the order they were added.
   */
  method CountOccurrences(list: seq<int>) returns (counts: map<int, nat>, keys: seq<int>)
    ensures keys == Distinct(list)
    ensures list != [] ==> 0 < |keys|
    ensures forall x :: x in list ==> x in keys
    ensures forall j :: 0 <= j < |keys| ==> keys[j] in counts && counts[keys[j]] == Occurrences(list, keys[j])
  {
    counts := map[];
    keys := [];
    var i := 0;
    while i < |list|
      invariant 0 <= i <= |list|
      invariant keys == Distinct(list[..i])
      invariant forall x :: x in counts <==> x in list[..i]
      invariant forall x :: x in counts ==> counts[x] == Occurrences(list[..i], x)
      invariant forall j :: 0 <= j < |keys| ==> keys[j] in counts
      invariant forall x :: x in counts ==> x in keys
    {
      var element := list[i];
      assert list[..i + 1][..i] == list[..i];
      assert list[..i + 1] == list[..i] + [element];
      forall x
        ensures Occurrences(list[..i + 1], x) == Occurrences(list[..i], x) + (if element == x then 1 else 0)
      {
      }
      OccurrencesPositive(list[..i], element);
      if element in counts {
        counts := counts[element := counts[element] + 1];
      } else {
        counts := counts[element := 1];
        keys := keys + [element];
      }
      i := i + 1;
    }
    assert list[..i] == list;
    if list != [] {
      DistinctNonEmpty(list);
    }
  }

  /**
   * GetMode: 0 for an empty list; otherwise an element of the list occurring
   * at least as often as any other, and among those the one the counting
   * dictionary enumerates first, i.e. the first to occur in the list.
   */
  method GetMode(list: seq<int>) returns (mode: int)
    ensures list == [] ==> mode == 0
    ensures list != [] ==> mode in list
    ensures forall x :: x in list ==> Occurrences(list, x) <= Occurrences(list, mode)
    ensures forall j :: 0 <= j < |Distinct(list)| && Occurrences(list, Distinct(list)[j]) == Occurrences(list, mode)
              ==> mode in Distinct(list)[..j + 1]
  {
    mode := 0;
    if list == [] {
      assert Distinct(list) == [];
      return;
    }
    var counts, keys := CountOccurrences(list);
    assert list[0] in list;
    assert 0 < |keys|;
    var max := counts[keys[0]];
    mode := keys[0];
    var k := 1;
    ghost var at := 0;
    while k < |keys|
      invariant 0 < k <= |keys|
      invariant at < k && keys[at] == mode && max == counts[mode]
      invariant forall j :: 0 <= j < k ==> counts[keys[j]] <= max
      invariant forall j :: 0 <= j < k && counts[keys[j]] == max ==> at <= j
    {
      var c := counts[keys[k]];
      if c > max {
        mode := keys[k];
        max := c;
        at := k;
      }
      k := k + 1;
    }
    assert keys[at] in keys;
    DistinctHasSameElements(list);
    forall x | x in list
      ensures Occurrences(list, x) <= Occurrences(list, mode)
    {
      var j :| 0 <= j < |keys| && keys[j] == x;
    }
    forall j | 0 <= j < |keys| && Occurrences(list, keys[j]) == Occurrences(list, mode)
      ensures mode in keys[..j + 1]
    {
      assert keys[..j + 1][at] == mode;
    }
  }

  function DegreesInRadians(angle: real): real { Pi * angle / 180.0 }

  function RadiansInDegrees(radians: real): real { radians * 180.0 / Pi }

  /** The two angle conversions are inverse to each other. */
  lemma DegreesRadiansRoundTrip(a: real)
    ensures RadiansInDegrees(DegreesInRadians(a)) == a
    ensures DegreesInRadians(RadiansInDegrees(a)) == a
  {
  }

  /** Twice the signed area of the triangle (o, a, b): positive when counter-clockwise. */
  function Cross(o: Point, a: Point, b: Point): real
  {
    (a.x - o.x) * (b.y - o.y) - (a.y - o.y) * (b.x - o.x)
  }

  /**
   * PtInTriangle: the point lies on the inner side of (or on) each of the
   * three edges, sides being measured against the triangle's orientation.
   */
  function PtInTriangle(p: Point, v1: Point, v2: Point, v3: Point): bool
  {
    var det := Cross(v1, v2, v3);
    det * Cross(v1, v2, p) >= 0.0 && det * Cross(v2, v3, p) >= 0.0 && det * Cross(v3, v1, p) >= 0.0
  }

  /** Every vertex of a triangle is inside it. */
  lemma PtInTriangleAcceptsVertices(v1: Point, v2: Point, v3: Point)
    ensures PtInTriangle(v1, v1, v2, v3) && PtInTriangle(v2, v1, v2, v3) && PtInTriangle(v3, v1, v2, v3)
  {
    var det := Cross(v1, v2, v3);
    assert Cross(v2, v3, v1) == det && Cross(v3, v1, v2) == det;
    assert det * det >= 0.0;
  }

  /** A degenerate triangle (its vertices collinear) accepts every point. */
  lemma PtInTriangleDegenerate(p: Point, v1: Point, v2: Point, v3: Point)
    requires Cross(v1, v2, v3) == 0.0
    ensures PtInTriangle(p, v1, v2, v3)
  {
  }

  /** DistanceBetweenTwoPoints: the Euclidean distance. */
  function Distance(sqrt: real -> real, p1: Point, p2: Point): (d: real)
    requires IsSqrt(sqrt)
    ensures 0.0 <= d
    ensures Sq(d) == Sq(p2.x - p1.x) + Sq(p2.y - p1.y)
    ensures p1 == p2 ==> d == 0.0
  {
    var dx := p2.x - p1.x;
    var dy := p2.y - p1.y;
    SquareNonNegative(dx);
    SquareNonNegative(dy);
    SqrtOfSquare(sqrt, 0.0);
    sqrt(Sq(dx) + Sq(dy))
  }

  lemma DistanceSymmetric(sqrt: real -> real, p1: Point, p2: Point)
    requires IsSqrt(sqrt)
    ensures Distance(sqrt, p1, p2) == Distance(sqrt, p2, p1)
  {
    assert Sq(p2.x - p1.x) == Sq(p1.x - p2.x);
    assert Sq(p2.y - p1.y) == Sq(p1.y - p2.y);
  }

  /** The outcome of GetLineIntersection: whether the segments meet, and the out point. */
  datatype Crossing = Crossing(hit: bool, at: Point)

  /** The "no collision" point GetLineIntersection reports. */
  const NoIntersection: Point := Point(-999.0, -999.0)

  /** The denominator both segment parameters of GetLineIntersection share. */
  function CrossingDenominator(p0: Point, p1: Point, p2: Point, p3: Point): real
  {
    var s1 := Sub(p1, p0);
    var s2 := Sub(p3, p2);
    -s2.x * s1.y + s1.x * s2.y
  }

  /** The parameter of the crossing point along the second segment (`s`) and along the first (`t`). */
  function CrossingParameterS(p0: Point, p1: Point, p2: Point, p3: Point): real
    requires CrossingDenominator(p0, p1, p2, p3) != 0.0
  {
    var s1 := Sub(p1, p0);
    (-s1.y * (p0.x - p2.x) + s1.x * (p0.y - p2.y)) / CrossingDenominator(p0, p1, p2, p3)
  }

  function CrossingParameterT(p0: Point, p1: Point, p2: Point, p3: Point): real
    requires CrossingDenominator(p0, p1, p2, p3) != 0.0
  {
    var s2 := Sub(p3, p2);
    (s2.x * (p0.y - p2.y) - s2.y * (p0.x - p2.x)) / CrossingDenominator(p0, p1, p2, p3)
  }

  /**
   * GetLineIntersection of segment p0-p1 with segment p2-p3: `t` places the
   * point on the first segment, `s` on the second, and a collision is
   * reported when both lie in [0, 1]. A zero denominator (parallel segments)
   * makes both parameters infinite or NaN in IEEE arithmetic, so every range
   * test fails and no collision is reported.
   */
  function GetLineIntersection(p0: Point, p1: Point, p2: Point, p3: Point): (c: Crossing)
    ensures !c.hit ==> c.at == NoIntersection
    ensures c.hit ==> CrossingDenominator(p0, p1, p2, p3) != 0.0
  {
    if CrossingDenominator(p0, p1, p2, p3) == 0.0 then Crossing(false, NoIntersection)
    else
      var s := CrossingParameterS(p0, p1, p2, p3);
      var t := CrossingParameterT(p0, p1, p2, p3);
      if s >= 0.0 && s <= 1.0 && t >= 0.0 && t <= 1.0 then
        Crossing(true, Point(p0.x + t * (p1.x - p0.x), p0.y + t * (p1.y - p0.y)))
      else Crossing(false, NoIntersection)
  }

  /** (b x w) a - (a x w) b == -(a x b) w, one coordinate at a time. */
  lemma CrossIdentity(a1: real, a2: real, b1: real, b2: real, w1: real, w2: real)
    ensures (b1 * w2 - b2 * w1) * a1 - (-a2 * w1 + a1 * w2) * b1 == -(-b1 * a2 + a1 * b2) * w1
    ensures (b1 * w2 - b2 * w1) * a2 - (-a2 * w1 + a1 * w2) * b2 == -(-b1 * a2 + a1 * b2) * w2
  {
  }

  /** Dividing a linear relation between numerators by their common denominator. */
  lemma DivideRelation(nt: real, ns: real, d: real, a: real, b: real, w: real)
    requires d != 0.0 && nt * a - ns * b == -d * w
    ensures (nt / d) * a - (ns / d) * b == -w
  {
    var t := nt / d;
    var s := ns / d;
    assert t * d == nt && s * d == ns;
    assert (t * a - s * b) * d == (t * d) * a - (s * d) * b;
    assert (t * a - s * b) * d == -w * d;
  }

  /** Where the crossing parameters place the point on the two segments coincide. */
  lemma CrossingPointsAgree(p0: Point, p1: Point, p2: Point, p3: Point)
    requires CrossingDenominator(p0, p1, p2, p3) != 0.0
    ensures Add(p0, Scale(CrossingParameterT(p0, p1, p2, p3), Sub(p1, p0)))
         == Add(p2, Scale(CrossingParameterS(p0, p1, p2, p3), Sub(p3, p2)))
  {
    var s1 := Sub(p1, p0);
    var s2 := Sub(p3, p2);
    var w := Sub(p0, p2);
    var denom := CrossingDenominator(p0, p1, p2, p3);
    var ns := -s1.y * w.x + s1.x * w.y;
    var nt := s2.x * w.y - s2.y * w.x;
    assert CrossingParameterS(p0, p1, p2, p3) == ns / denom;
    assert CrossingParameterT(p0, p1, p2, p3) == nt / denom;
    CrossIdentity(s1.x, s1.y, s2.x, s2.y, w.x, w.y);
    DivideRelation(nt, ns, denom, s1.x, s2.x, w.x);
    DivideRelation(nt, ns, denom, s1.y, s2.y, w.y);
  }

  /**
   * A reported intersection point lies on both segments: on the first at a
   * parameter in [0, 1] and on the second at a parameter in [0, 1].
   */
  lemma IntersectionOnBothSegments(p0: Point, p1: Point, p2: Point, p3: Point)
    requires GetLineIntersection(p0, p1, p2, p3).hit
    ensures exists t :: 0.0 <= t <= 1.0 && GetLineIntersection(p0, p1, p2, p3).at == Add(p0, Scale(t, Sub(p1, p0)))
    ensures exists s :: 0.0 <= s <= 1.0 && GetLineIntersection(p0, p1, p2, p3).at == Add(p2, Scale(s, Sub(p3, p2)))
  {
    var s := CrossingParameterS(p0, p1, p2, p3);
    var t := CrossingParameterT(p0, p1, p2, p3);
    var at := GetLineIntersection(p0, p1, p2, p3).at;
    assert 0.0 <= s <= 1.0 && 0.0 <= t <= 1.0;
    assert at == Add(p0, Scale(t, Sub(p1, p0)));
    CrossingPointsAgree(p0, p1, p2, p3);
    assert at == Add(p2, Scale(s, Sub(p3, p2)));
  }

  /** The outcome of IsOnLine: whether the foot of the perpendicular is on the segment, and the closest point. */
  datatype Projection = Projection(onLine: bool, closest: Point)

  lemma NonZeroLength(d: Point)
    requires d.x != 0.0 || d.y != 0.0
    ensures Dot(d, d) > 0.0
  {
    SumOfSquaresPositive(d.x, d.y);
  }

  /** The parameter of the projection of `c` onto the line through p0 and p1. */
  function ProjectionParameter(p0: Point, p1: Point, c: Point): real
    requires p0 != p1
  {
    var d := Sub(p1, p0);
    assert d.x != 0.0 || d.y != 0.0;
    NonZeroLength(d);
    Dot(Sub(c, p0), d) / Dot(d, d)
  }

  /**
   * IsOnLine: the point of segment p0-p1 closest to `c` (the projection,
   * clamped to the segment's ends) and whether the projection fell on the
   * segment. A zero-length segment makes the source divide zero by zero.
   */
  function IsOnLine(p0: Point, p1: Point, c: Point): (r: Projection)
    requires p0 != p1
    ensures r.onLine <==> 0.0 <= ProjectionParameter(p0, p1, c) <= 1.0
    ensures r.closest == Add(p0, Scale(Clamp(ProjectionParameter(p0, p1, c), 0.0, 1.0), Sub(p1, p0)))
  {
    var d := Sub(p1, p0);
    var t := ProjectionParameter(p0, p1, c);
    var closest :=
      if t < 0.0 then p0
      else if t > 1.0 then p1
      else Point(p0.x + d.x * t, p0.y + d.y * t);
    Projection(t >= 0.0 && t <= 1.0, closest)
  }

  lemma ProjectionResidual(t: real, dd: real, n: real)
    requires dd != 0.0 && t == n / dd
    ensures n - t * dd == 0.0
  {
  }

  /** When the projection falls on the segment, the closest point is the foot of the perpendicular from `c`. */
  lemma IsOnLinePerpendicular(p0: Point, p1: Point, c: Point)
    requires p0 != p1 && IsOnLine(p0, p1, c).onLine
    ensures Dot(Sub(c, IsOnLine(p0, p1, c).closest), Sub(p1, p0)) == 0.0
  {
    var d := Sub(p1, p0);
    var t := ProjectionParameter(p0, p1, c);
    assert d.x != 0.0 || d.y != 0.0;
    NonZeroLength(d);
    ProjectionResidual(t, Dot(d, d), Dot(Sub(c, p0), d));
    var q := IsOnLine(p0, p1, c).closest;
    assert q == Point(p0.x + d.x * t, p0.y + d.y * t);
    var e := Sub(c, p0);
    assert Dot(Sub(c, q), d) == (e.x - d.x * t) * d.x + (e.y - d.y * t) * d.y;
    assert (e.x - d.x * t) * d.x + (e.y - d.y * t) * d.y == Dot(e, d) - t * Dot(d, d);
  }
}
