/**
 * The dog's wall sensor (Predator/WallSensor.cs): a fan of 45-degree sectors,
 * each a shallow triangle in front of the dog, and each reports how close
 * the nearest fence segment crossing it comes: 0 when none does, up to 1
 * for a fence at the dog itself.
 */
module WallSensor {
  import opened Numerics
  import opened MathUtils
  import opened World

  /** DogSensorWallDepthOfVisionInPixels. */
  const WallDepth: real := 10.0

  /** The width of every wall sector, in degrees, whatever the number of sectors. */
  const SectorWidth: real := 45.0

  /** The first bearing of sector `i`, in degrees. */
  function WallSectorStart(facing: real, i: int): real
  {
    0.0 - SectorWidth / 2.0 + facing + i as real * SectorWidth
  }

  /**
   * A far corner of a wall sector. Unlike the sheep sensor, the sine goes
   * to the x coordinate and the cosine to y.
   */
  function WallCorner(tr: Transcendentals, location: Point, radians: real): Point
  {
    Point(Sin(tr, radians) * WallDepth + location.x, Cos(tr, radians) * WallDepth + location.y)
  }

  /** The triangle of wall sector `i`. */
  function WallTriangle(tr: Transcendentals, facing: real, location: Point, i: int): Triangle
  {
    var rMin := DegreesInRadians(WallSectorStart(facing, i));
    var rMax := rMin + DegreesInRadians(SectorWidth);
    Triangle(location, WallCorner(tr, location, rMin), WallCorner(tr, location, rMax))
  }

  /** A fence segment, from one point of a polyline to the next. */
  datatype Segment = Segment(from: Point, to: Point)

  /** The segments of one fence, in order. */
  function SegmentsOf(fence: Polyline): (r: seq<Segment>)
    ensures |fence| < 2 ==> r == []
    ensures 2 <= |fence| ==> |r| == |fence| - 1
    ensures forall i :: 0 <= i < |r| ==> r[i] == Segment(fence[i], fence[i + 1])
  {
    if |fence| < 2 then [] else seq(|fence| - 1, i requires 0 <= i < |fence| - 1 => Segment(fence[i], fence[i + 1]))
  }

  /** The segments of all fences, fence by fence. */
  function Segments(fences: seq<Polyline>): seq<Segment>
  {
    if |fences| == 0 then [] else Segments(fences[..|fences| - 1]) + SegmentsOf(fences[|fences| - 1])
  }

  /**
   * The point at which the sensor measures a fence segment, if the segment
   * crosses an edge of the triangle. The three crossings are combined in the
   * order Read combines them: a missing right crossing is replaced by the
   * left one, then a missing left one by the right one, then a crossing of
   * the far edge replaces both; the point measured is half way between the two.
   */
  function Measure(t: Triangle, s: Segment): Crossing
  {
    var leftHit := GetLineIntersection(t.apex, t.left, s.from, s.to);
    var rightHit := GetLineIntersection(t.apex, t.right, s.from, s.to);
    var farHit := GetLineIntersection(t.left, t.right, s.from, s.to);
    if !leftHit.hit && !rightHit.hit && !farHit.hit then Crossing(false, NoIntersection)
    else
      var i3 := if !rightHit.hit then leftHit.at else rightHit.at;
      var i2 := if !leftHit.hit then i3 else leftHit.at;
      var i2' := if farHit.hit then farHit.at else i2;
      var i3' := if farHit.hit then i2' else i3;
      Crossing(true, Point((i2'.x + i3'.x) / 2.0, (i2'.y + i3'.y) / 2.0))
  }

  /**
   * What Measure reports, case by case: the far-edge crossing when there is
   * one; otherwise the midpoint of the two side crossings, or the one side
   * crossing there is. The "no collision" point is never measured.
   */
  lemma MeasureCases(t: Triangle, s: Segment)
    ensures var leftHit := GetLineIntersection(t.apex, t.left, s.from, s.to);
            var rightHit := GetLineIntersection(t.apex, t.right, s.from, s.to);
            var farHit := GetLineIntersection(t.left, t.right, s.from, s.to);
            var m := Measure(t, s);
            (m.hit <==> leftHit.hit || rightHit.hit || farHit.hit) &&
            (farHit.hit ==> m.at == farHit.at) &&
            (!farHit.hit && leftHit.hit && rightHit.hit ==>
               m.at == Point((leftHit.at.x + rightHit.at.x) / 2.0, (leftHit.at.y + rightHit.at.y) / 2.0)) &&
            (!farHit.hit && leftHit.hit && !rightHit.hit ==> m.at == leftHit.at) &&
            (!farHit.hit && !leftHit.hit && rightHit.hit ==> m.at == rightHit.at)
  {
  }

  /** How near a measured point is, as a share of the depth: the distance, clamped to [0, depth], over the depth. */
  function Fraction(tr: Transcendentals, t: Triangle, p: Point): (f: real)
    requires ValidTranscendentals(tr)
    ensures 0.0 <= f <= 1.0
    ensures f < 1.0 <==> Distance(tr.sqrt, t.apex, p) < WallDepth
  {
    Clamp(Distance(tr.sqrt, t.apex, p), 0.0, WallDepth) / WallDepth
  }

  /**
   * The sector's reading before it is inverted: starting from `start`, each
   * measured segment, in order, lowers it to its fraction when that is smaller.
   */
  function NearestFrom(tr: Transcendentals, t: Triangle, start: real, segments: seq<Segment>): real
    requires ValidTranscendentals(tr)
  {
    if |segments| == 0 then start
    else
      var m := NearestFrom(tr, t, start, segments[..|segments| - 1]);
      var c := Measure(t, segments[|segments| - 1]);
      if c.hit && Fraction(tr, t, c.at) < m then Fraction(tr, t, c.at) else m
  }

  /** Scanning a concatenation is scanning the second part from the result of the first. */
  lemma {:induction false} NearestFromAppend(tr: Transcendentals, t: Triangle, start: real, a: seq<Segment>, b: seq<Segment>)
    requires ValidTranscendentals(tr)
    ensures NearestFrom(tr, t, start, a + b) == NearestFrom(tr, t, NearestFrom(tr, t, start, a), b)
  {
    if |b| == 0 {
      assert a + b == a;
    } else {
      var b' := b[..|b| - 1];
      NearestFromAppend(tr, t, start, a, b');
      assert (a + b)[..|a + b| - 1] == a + b';
    }
  }

  /**
   * Starting from 1, the reading lies in [0, 1]; it is no more than the
   * fraction of any measured segment, and it is either 1 or the fraction of
   * one of them.
   */
  lemma {:induction false} NearestIsNearest(tr: Transcendentals, t: Triangle, segments: seq<Segment>)
    requires ValidTranscendentals(tr)
    ensures 0.0 <= NearestFrom(tr, t, 1.0, segments) <= 1.0
    ensures forall k :: 0 <= k < |segments| && Measure(t, segments[k]).hit ==>
              NearestFrom(tr, t, 1.0, segments) <= Fraction(tr, t, Measure(t, segments[k]).at)
    ensures NearestFrom(tr, t, 1.0, segments) == 1.0 ||
            exists k :: 0 <= k < |segments| && Measure(t, segments[k]).hit &&
              NearestFrom(tr, t, 1.0, segments) == Fraction(tr, t, Measure(t, segments[k]).at)
  {
    var n := |segments|;
    if n > 0 {
      var init := segments[..n - 1];
      NearestIsNearest(tr, t, init);
      var m := NearestFrom(tr, t, 1.0, init);
      var c := Measure(t, segments[n - 1]);
      var r := NearestFrom(tr, t, 1.0, segments);
      assert r == if c.hit && Fraction(tr, t, c.at) < m then Fraction(tr, t, c.at) else m;
      forall k | 0 <= k < n && Measure(t, segments[k]).hit
        ensures r <= Fraction(tr, t, Measure(t, segments[k]).at)
      {
        if k < n - 1 {
          assert init[k] == segments[k];
        }
      }
      if r != 1.0 {
        if r == m {
          var k :| 0 <= k < n - 1 && Measure(t, init[k]).hit && m == Fraction(tr, t, Measure(t, init[k]).at);
          assert init[k] == segments[k];
        } else {
          assert Measure(t, segments[n - 1]).hit && r == Fraction(tr, t, Measure(t, segments[n - 1]).at);
        }
      }
    }
  }

  /** Some fence segment is measured in triangle `t` nearer to its apex than the depth. */
  ghost predicate SeesWall(tr: Transcendentals, t: Triangle, segments: seq<Segment>)
    requires ValidTranscendentals(tr)
  {
    exists k :: 0 <= k < |segments| && Measure(t, segments[k]).hit &&
      Distance(tr.sqrt, t.apex, Measure(t, segments[k]).at) < WallDepth
  }

  /**
   * The reading lies in [0, 1] and stays at 1 exactly when no fence segment
   * is measured nearer than the depth.
   */
  lemma NearestIsOneIffNothingNear(tr: Transcendentals, t: Triangle, segments: seq<Segment>)
    requires ValidTranscendentals(tr)
    ensures 0.0 <= NearestFrom(tr, t, 1.0, segments) <= 1.0
    ensures NearestFrom(tr, t, 1.0, segments) == 1.0 <==> !SeesWall(tr, t, segments)
  {
    NearestIsNearest(tr, t, segments);
  }

  /** What sector `i` outputs: 1 minus its reading over all fence segments. */
  function WallValue(tr: Transcendentals, facing: real, location: Point, fences: seq<Polyline>, i: int): real
    requires ValidTranscendentals(tr)
  {
    1.0 - NearestFrom(tr, WallTriangle(tr, facing, location, i), 1.0, Segments(fences))
  }

  /** The values of sectors [0, n), in order. */
  function WallValues(tr: Transcendentals, facing: real, location: Point, fences: seq<Polyline>, n: nat): (r: seq<real>)
    requires ValidTranscendentals(tr)
    ensures |r| == n
  {
    if n == 0 then [] else WallValues(tr, facing, location, fences, n - 1) + [WallValue(tr, facing, location, fences, n - 1)]
  }

  /** The triangles of the sectors [0, n) in which a wall was seen, in order. */
  function WallTargets(tr: Transcendentals, facing: real, location: Point, fences: seq<Polyline>, n: nat): seq<Triangle>
    requires ValidTranscendentals(tr)
  {
    if n == 0 then []
    else
      var t := WallTriangle(tr, facing, location, n - 1);
      WallTargets(tr, facing, location, fences, n - 1) +
        (if NearestFrom(tr, t, 1.0, Segments(fences)) != 1.0 then [t] else [])
  }

  /** Entry `i` of WallValues is the value of sector `i`. */
  lemma {:induction false} WallValuesAt(tr: Transcendentals, facing: real, location: Point, fences: seq<Polyline>, n: nat)
    requires ValidTranscendentals(tr)
    ensures forall i :: 0 <= i < n ==> WallValues(tr, facing, location, fences, n)[i] == WallValue(tr, facing, location, fences, i)
  {
    if n > 0 {
      WallValuesAt(tr, facing, location, fences, n - 1);
    }
  }

  /**
   * A sector's output lies in [0, 1], and is more than 0 exactly when some
   * fence segment is measured in it nearer than the depth.
   */
  lemma WallValueMeaning(tr: Transcendentals, facing: real, location: Point, fences: seq<Polyline>, i: int)
    requires ValidTranscendentals(tr)
    ensures 0.0 <= WallValue(tr, facing, location, fences, i) <= 1.0
    ensures 0.0 < WallValue(tr, facing, location, fences, i) <==>
              SeesWall(tr, WallTriangle(tr, facing, location, i), Segments(fences))
  {
    NearestIsOneIffNothingNear(tr, WallTriangle(tr, facing, location, i), Segments(fences));
  }

  /**
   * What Read has produced after its first `n` sectors: their values and
   * triangles, and the triangles of those among them that saw a wall.
   */
  ghost predicate WallSwept(tr: Transcendentals, facing: real, location: Point, fences: seq<Polyline>, n: nat,
                            values: seq<real>, sweep: seq<Triangle>, targets: seq<Triangle>)
    requires ValidTranscendentals(tr)
  {
    values == WallValues(tr, facing, location, fences, n) &&
    |sweep| == n && (forall i :: 0 <= i < n ==> sweep[i] == WallTriangle(tr, facing, location, i)) &&
    targets == WallTargets(tr, facing, location, fences, n)
  }

  /** Sector `n` adds its value to the outputs, and its triangle to the targets when its reading is not 1. */
  lemma WallStep(tr: Transcendentals, facing: real, location: Point, fences: seq<Polyline>, n: nat, t: Triangle, m: real)
    requires ValidTranscendentals(tr)
    requires t == WallTriangle(tr, facing, location, n) && m == NearestFrom(tr, t, 1.0, Segments(fences))
    ensures WallValues(tr, facing, location, fences, n + 1) == WallValues(tr, facing, location, fences, n) + [1.0 - m]
    ensures WallTargets(tr, facing, location, fences, n + 1) ==
              WallTargets(tr, facing, location, fences, n) + (if m != 1.0 then [t] else [])
  {
  }

  /** Read's bookkeeping for sector `n`, given its triangle `t` and reading `m`. */
  lemma WallSweptStep(tr: Transcendentals, facing: real, location: Point, fences: seq<Polyline>, n: nat, t: Triangle, m: real,
                      values: seq<real>, sweep: seq<Triangle>, targets: seq<Triangle>)
    requires ValidTranscendentals(tr)
    requires t == WallTriangle(tr, facing, location, n) && m == NearestFrom(tr, t, 1.0, Segments(fences))
    requires WallSwept(tr, facing, location, fences, n, values, sweep, targets)
    ensures WallSwept(tr, facing, location, fences, n + 1, values + [1.0 - m], sweep + [t],
                      targets + (if m != 1.0 then [t] else []))
  {
    WallStep(tr, facing, location, fences, n, t, m);
  }

  class WallSensor {
    /** The sector triangles of the last reading, for drawing. */
    var sweepTriangles: seq<Triangle>
    /** The sectors in which a wall was seen. */
    var targetTriangles: seq<Triangle>

    constructor()
      ensures sweepTriangles == [] && targetTriangles == []
    {
      sweepTriangles := [];
      targetTriangles := [];
    }

    /** The loop of Read over the segments of one fence, continuing from `start`. */
    static method ScanFence(tr: Transcendentals, triangle: Triangle, fence: Polyline, start: real) returns (m: real)
      requires ValidTranscendentals(tr)
      ensures m == NearestFrom(tr, triangle, start, SegmentsOf(fence))
    {
      m := start;
      var i := 0;
      while i < |fence| - 1
        invariant 0 <= i && (i <= |fence| - 1 || i == 0)
        invariant m == NearestFrom(tr, triangle, start, SegmentsOf(fence)[..i])
      {
        var c := Measure(triangle, Segment(fence[i], fence[i + 1]));
        assert SegmentsOf(fence)[..i + 1][..i] == SegmentsOf(fence)[..i];
        if c.hit {
          var dist := Clamp(Distance(tr.sqrt, triangle.apex, c.at), 0.0, WallDepth);
          var mult := dist / WallDepth;
          if mult < m {
            m := mult;
          }
        }
        i := i + 1;
      }
      assert SegmentsOf(fence)[..i] == SegmentsOf(fence);
    }

    /** The loops of Read over all fences for one sector, starting from 1. */
    static method ScanFences(tr: Transcendentals, triangle: Triangle, fences: seq<Polyline>) returns (m: real)
      requires ValidTranscendentals(tr)
      ensures m == NearestFrom(tr, triangle, 1.0, Segments(fences))
    {
      m := 1.0;
      var f := 0;
      while f < |fences|
        invariant 0 <= f <= |fences|
        invariant m == NearestFrom(tr, triangle, 1.0, Segments(fences[..f]))
      {
        assert fences[..f + 1][..f] == fences[..f];
        NearestFromAppend(tr, triangle, 1.0, Segments(fences[..f]), SegmentsOf(fences[f]));
        m := ScanFence(tr, triangle, fences[f], m);
        f := f + 1;
      }
      assert fences[..f] == fences;
    }

    /** The triangle of the sector whose first bearing is `degrees`, `WallDepth` deep. */
    static method SectorTriangle(tr: Transcendentals, location: Point, degrees: real) returns (triangle: Triangle)
      requires ValidTranscendentals(tr)
      ensures var rMin := DegreesInRadians(degrees);
              triangle == Triangle(location, WallCorner(tr, location, rMin), WallCorner(tr, location, rMin + DegreesInRadians(SectorWidth)))
    {
      var rMin := DegreesInRadians(degrees);
      var rMax := rMin + DegreesInRadians(SectorWidth);
      var p1 := Point(Sin(tr, rMin) * WallDepth + location.x, Cos(tr, rMin) * WallDepth + location.y);
      var p2 := Point(Sin(tr, rMax) * WallDepth + location.x, Cos(tr, rMax) * WallDepth + location.y);
      triangle := Triangle(location, p1, p2);
    }

    /** One pass of Read's outer loop: the sector starting at bearing `degrees`, appended to what the earlier sectors produced. */
    static method ReadWallSector(tr: Transcendentals, facing: real, location: Point, fences: seq<Polyline>, index: nat, degrees: real,
                                 ghost values: seq<real>, sweep: seq<Triangle>, targets: seq<Triangle>)
        returns (v: real, sweep': seq<Triangle>, targets': seq<Triangle>)
      requires ValidTranscendentals(tr)
      requires degrees == WallSectorStart(facing, index)
      requires WallSwept(tr, facing, location, fences, index, values, sweep, targets)
      ensures WallSwept(tr, facing, location, fences, index + 1, values + [v], sweep', targets')
    {
      var triangle := SectorTriangle(tr, location, degrees);
      assert triangle == WallTriangle(tr, facing, location, index);
      var m := ScanFences(tr, triangle, fences);
      WallSweptStep(tr, facing, location, fences, index, triangle, m, values, sweep, targets);
      sweep' := sweep + [triangle];
      targets' := targets + (if m != 1.0 then [triangle] else []);
      v := 1.0 - m;
    }

    /**
     * Read: `samplePoints` values, sector `i` reporting WallValue; the
     * sweep list is refilled with every sector's triangle and the target
     * list with those of the sectors that saw a wall.
     */
    method Read(tr: Transcendentals, facing: real, location: Point, fences: seq<Polyline>, samplePoints: nat)
        returns (output: array<real>)
      requires ValidTranscendentals(tr)
      modifies this
      ensures fresh(output) && output.Length == samplePoints
      ensures output[..] == WallValues(tr, facing, location, fences, samplePoints)
      ensures |sweepTriangles| == samplePoints
      ensures forall i :: 0 <= i < samplePoints ==> sweepTriangles[i] == WallTriangle(tr, facing, location, i)
      ensures targetTriangles == WallTargets(tr, facing, location, fences, samplePoints)
    {
      var sweep: seq<Triangle> := [];
      var targets: seq<Triangle> := [];
      output := new real[samplePoints];
      var degrees := 0.0 - SectorWidth / 2.0 + facing;
      var index := 0;
      while index < samplePoints
        invariant 0 <= index <= samplePoints == output.Length
        invariant degrees == WallSectorStart(facing, index)
        invariant WallSwept(tr, facing, location, fences, index, output[..index], sweep, targets)
      {
        ghost var before := output[..index];
        var v;
        v, sweep, targets := ReadWallSector(tr, facing, location, fences, index, degrees, output[..index], sweep, targets);
        output[index] := v;
        assert output[..index + 1] == before + [v];
        degrees := degrees + SectorWidth;
        index := index + 1;
      }
      assert output[..] == output[..index];
      sweepTriangles, targetTriangles := sweep, targets;
    }
  }
}
