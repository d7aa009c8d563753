/**
 * The dog's sheep sensor (Predator/SheepSensor.cs): the circle around the dog
 * is cut into equal sectors, each a triangle reaching as deep as the dog
 * sees, and each sector reports the share of the flock inside it, the
 * distance to the nearest sheep in it, or just whether there is one.
 */
module SheepSensor {
  import opened Numerics
  import opened MathUtils
  import opened World

  /** AISheepSensorOutputIsDistance and AIBinarySheepSensor. */
  datatype SensorMode = SensorMode(outputIsDistance: bool, binary: bool)

  /** The number of sectors: (int)(360 / angle). */
  function SampleCount(angle: real): (n: nat)
    requires 0.0 < angle
  {
    Trunc(360.0 / angle)
  }

  /** The first bearing of sector `i`, in degrees: half a sector before the facing, then one sector per index. */
  function SectorStart(facing: real, angle: real, i: int): real
  {
    0.0 - angle / 2.0 + facing + Times(i as real, angle)
  }

  /** Consecutive sectors start one sector width apart. */
  lemma SectorStartNext(facing: real, angle: real, i: int)
    ensures SectorStart(facing, angle, i + 1) == SectorStart(facing, angle, i) + angle
  {
    TimesSucc(i as real, angle);
  }

  /** A far corner of a sector: `depth` along the bearing `radians` from the dog. */
  function Corner(tr: Transcendentals, location: Point, depth: real, radians: real): Point
  {
    Point(Cos(tr, radians) * depth + location.x, Sin(tr, radians) * depth + location.y)
  }

  /** The triangle of sector `i`. */
  function SectorTriangle(tr: Transcendentals, facing: real, angle: real, location: Point, i: int): Triangle
  {
    var rMin := DegreesInRadians(SectorStart(facing, angle, i));
    var rMax := rMin + DegreesInRadians(angle);
    Triangle(location, Corner(tr, location, SheepVisionDepth, rMin), Corner(tr, location, SheepVisionDepth, rMax))
  }

  /** Where the number of sector `i` is drawn: half way between its far corners. */
  function SectorLabel(tr: Transcendentals, facing: real, angle: real, location: Point, i: int): Point
  {
    var t := SectorTriangle(tr, facing, angle, location, i);
    Point((t.left.x + t.right.x) / 2.0, (t.left.y + t.right.y) / 2.0)
  }

  predicate InSector(t: Triangle, p: Point)
  {
    PtInTriangle(p, t.apex, t.left, t.right)
  }

  /**
   * The value of a sector after visiting the sheep in order: in distance
   * mode a sheep inside replaces the value when the value is still 0 or the
   * sheep is nearer (distance over depth); otherwise each sheep inside adds 1.
   */
  function Tally(tr: Transcendentals, mode: SensorMode, t: Triangle, ps: seq<Point>): real
    requires ValidTranscendentals(tr)
  {
    if |ps| == 0 then 0.0
    else
      var acc := Tally(tr, mode, t, ps[..|ps| - 1]);
      var p := ps[|ps| - 1];
      if !InSector(t, p) then acc
      else if mode.outputIsDistance then
        var d := Distance(tr.sqrt, p, t.apex) / SheepVisionDepth;
        if acc == 0.0 || d < acc then d else acc
      else acc + 1.0
  }

  /** The number of positions inside the sector. */
  function CountIn(t: Triangle, ps: seq<Point>): (n: nat)
    ensures n <= |ps|
  {
    if |ps| == 0 then 0 else CountIn(t, ps[..|ps| - 1]) + (if InSector(t, ps[|ps| - 1]) then 1 else 0)
  }

  /** What a sector reports: the tally, divided by the flock size when counting, then 1 for any positive value when binary. */
  function SectorValue(tr: Transcendentals, mode: SensorMode, t: Triangle, ps: seq<Point>): real
    requires ValidTranscendentals(tr)
    requires mode.outputIsDistance || 0 < |ps|
  {
    var v := Tally(tr, mode, t, ps);
    var scaled := if mode.outputIsDistance then v else v / |ps| as real;
    if mode.binary && scaled > 0.0 then 1.0 else scaled
  }

  /** No position is in the sector exactly when the count is 0. */
  lemma {:induction false} CountInZero(t: Triangle, ps: seq<Point>)
    ensures CountIn(t, ps) == 0 <==> forall j :: 0 <= j < |ps| ==> !InSector(t, ps[j])
  {
    if |ps| > 0 {
      CountInZero(t, ps[..|ps| - 1]);
      assert forall j :: 0 <= j < |ps| - 1 ==> ps[..|ps| - 1][j] == ps[j];
    }
  }

  /** Counting, the tally is the number of sheep in the sector. */
  lemma {:induction false} TallyCounts(tr: Transcendentals, mode: SensorMode, t: Triangle, ps: seq<Point>)
    requires ValidTranscendentals(tr) && !mode.outputIsDistance
    ensures Tally(tr, mode, t, ps) == CountIn(t, ps) as real
  {
    if |ps| > 0 {
      TallyCounts(tr, mode, t, ps[..|ps| - 1]);
    }
  }

  /**
   * Measuring distance, the tally is 0 when no sheep is in the sector, is
   * never negative, and when every sheep inside is strictly away from the
   * dog it is the distance of one of them and no more than any of theirs.
   */
  lemma {:induction false} TallyNearest(tr: Transcendentals, mode: SensorMode, t: Triangle, ps: seq<Point>)
    requires ValidTranscendentals(tr) && mode.outputIsDistance
    ensures 0.0 <= Tally(tr, mode, t, ps)
    ensures CountIn(t, ps) == 0 ==> Tally(tr, mode, t, ps) == 0.0
    ensures (forall j :: 0 <= j < |ps| && InSector(t, ps[j]) ==> 0.0 < Distance(tr.sqrt, ps[j], t.apex)) ==>
              (forall j :: 0 <= j < |ps| && InSector(t, ps[j]) ==>
                 Tally(tr, mode, t, ps) <= Distance(tr.sqrt, ps[j], t.apex) / SheepVisionDepth) &&
              (CountIn(t, ps) == 0 ||
                 exists j :: 0 <= j < |ps| && InSector(t, ps[j]) &&
                   Tally(tr, mode, t, ps) == Distance(tr.sqrt, ps[j], t.apex) / SheepVisionDepth)
  {
    var n := |ps|;
    if n > 0 {
      var init := ps[..n - 1];
      TallyNearest(tr, mode, t, init);
      assert forall j :: 0 <= j < n - 1 ==> init[j] == ps[j];
      var p := ps[n - 1];
      var acc := Tally(tr, mode, t, init);
      if InSector(t, p) {
        var d := Distance(tr.sqrt, p, t.apex) / SheepVisionDepth;
        QuotientWithin(Distance(tr.sqrt, p, t.apex), SheepVisionDepth, 0.0, Distance(tr.sqrt, p, t.apex));
        if forall j :: 0 <= j < n && InSector(t, ps[j]) ==> 0.0 < Distance(tr.sqrt, ps[j], t.apex) {
          QuotientSign(Distance(tr.sqrt, p, t.apex), SheepVisionDepth);
          if CountIn(t, init) == 0 {
            CountInZero(t, init);
          } else {
            var k :| 0 <= k < n - 1 && InSector(t, init[k]) && acc == Distance(tr.sqrt, init[k], t.apex) / SheepVisionDepth;
            QuotientSign(Distance(tr.sqrt, init[k], t.apex), SheepVisionDepth);
          }
        }
      }
    }
  }

  /** A sector's value lies in [0, 1] when counting (or binary) and is never negative. */
  lemma SectorValueBounds(tr: Transcendentals, mode: SensorMode, t: Triangle, ps: seq<Point>)
    requires ValidTranscendentals(tr) && (mode.outputIsDistance || 0 < |ps|)
    ensures 0.0 <= SectorValue(tr, mode, t, ps)
    ensures !mode.outputIsDistance || mode.binary ==> SectorValue(tr, mode, t, ps) <= 1.0
    ensures mode.binary ==> SectorValue(tr, mode, t, ps) == 0.0 || SectorValue(tr, mode, t, ps) == 1.0
    ensures !mode.outputIsDistance && !mode.binary ==> SectorValue(tr, mode, t, ps) == CountIn(t, ps) as real / |ps| as real
  {
    if mode.outputIsDistance {
      TallyNearest(tr, mode, t, ps);
    } else {
      TallyCounts(tr, mode, t, ps);
      QuotientWithin(CountIn(t, ps) as real, |ps| as real, 0.0, 1.0);
    }
  }

  /** The triangles of the sectors [0, n) whose value is positive, in order. */
  function TargetTriangles(tr: Transcendentals, mode: SensorMode, facing: real, angle: real, location: Point, ps: seq<Point>, n: nat): seq<Triangle>
    requires ValidTranscendentals(tr) && (mode.outputIsDistance || 0 < |ps|)
  {
    if n == 0 then []
    else
      var t := SectorTriangle(tr, facing, angle, location, n - 1);
      TargetTriangles(tr, mode, facing, angle, location, ps, n - 1) + (if SectorValue(tr, mode, t, ps) > 0.0 then [t] else [])
  }

  /** The values of the sectors [0, n) whose value is positive, in order. */
  function TargetAmounts(tr: Transcendentals, mode: SensorMode, facing: real, angle: real, location: Point, ps: seq<Point>, n: nat): (r: seq<real>)
    requires ValidTranscendentals(tr) && (mode.outputIsDistance || 0 < |ps|)
    ensures |r| == |TargetTriangles(tr, mode, facing, angle, location, ps, n)|
    ensures forall k :: 0 <= k < |r| ==> 0.0 < r[k]
  {
    if n == 0 then []
    else
      var t := SectorTriangle(tr, facing, angle, location, n - 1);
      var v := SectorValue(tr, mode, t, ps);
      TargetAmounts(tr, mode, facing, angle, location, ps, n - 1) + (if v > 0.0 then [v] else [])
  }

  /** The values of the sectors [0, n), in order. */
  function SectorValues(tr: Transcendentals, mode: SensorMode, facing: real, angle: real, location: Point, ps: seq<Point>, n: nat): (r: seq<real>)
    requires ValidTranscendentals(tr) && (mode.outputIsDistance || 0 < |ps|)
    ensures |r| == n
  {
    if n == 0 then []
    else SectorValues(tr, mode, facing, angle, location, ps, n - 1) + [SectorValue(tr, mode, SectorTriangle(tr, facing, angle, location, n - 1), ps)]
  }

  /** Entry `i` of SectorValues is the value of sector `i`. */
  lemma {:induction false} SectorValuesAt(tr: Transcendentals, mode: SensorMode, facing: real, angle: real, location: Point, ps: seq<Point>, n: nat)
    requires ValidTranscendentals(tr) && (mode.outputIsDistance || 0 < |ps|)
    ensures forall i :: 0 <= i < n ==>
              SectorValues(tr, mode, facing, angle, location, ps, n)[i] == SectorValue(tr, mode, SectorTriangle(tr, facing, angle, location, i), ps)
  {
    if n > 0 {
      SectorValuesAt(tr, mode, facing, angle, location, ps, n - 1);
    }
  }

  /** Sector `n` joins the targets exactly when its value is positive. */
  lemma TargetsNext(tr: Transcendentals, mode: SensorMode, facing: real, angle: real, location: Point, ps: seq<Point>, n: nat,
                    t: Triangle, v: real)
    requires ValidTranscendentals(tr) && (mode.outputIsDistance || 0 < |ps|)
    requires t == SectorTriangle(tr, facing, angle, location, n) && v == SectorValue(tr, mode, t, ps)
    ensures TargetTriangles(tr, mode, facing, angle, location, ps, n + 1) ==
              TargetTriangles(tr, mode, facing, angle, location, ps, n) + (if v > 0.0 then [t] else [])
    ensures TargetAmounts(tr, mode, facing, angle, location, ps, n + 1) ==
              TargetAmounts(tr, mode, facing, angle, location, ps, n) + (if v > 0.0 then [v] else [])
  {
  }

  /**
   * What Read has produced after its first `n` sectors: their values,
   * triangles and labels, and the triangles and values of those among them
   * that reported something positive.
   */
  ghost predicate Swept(tr: Transcendentals, mode: SensorMode, facing: real, angle: real, location: Point, ps: seq<Point>, n: nat,
                        values: seq<real>, sweep: seq<Triangle>, marks: seq<Point>, targets: seq<Triangle>, amounts: seq<real>)
    requires ValidTranscendentals(tr) && (mode.outputIsDistance || 0 < |ps|)
  {
    values == SectorValues(tr, mode, facing, angle, location, ps, n) &&
    |sweep| == n && (forall i :: 0 <= i < n ==> sweep[i] == SectorTriangle(tr, facing, angle, location, i)) &&
    |marks| == n && (forall i :: 0 <= i < n ==> marks[i] == SectorLabel(tr, facing, angle, location, i)) &&
    targets == TargetTriangles(tr, mode, facing, angle, location, ps, n) &&
    amounts == TargetAmounts(tr, mode, facing, angle, location, ps, n)
  }

  class SheepSensor {
    /** The sector triangles of the last reading, for drawing. */
    var sweepTriangles: seq<Triangle>
    /** The sectors that saw sheep, and what each reported. */
    var targetTriangles: seq<Triangle>
    var labels: seq<Point>
    var amountPerTargetTriangle: seq<real>

    constructor()
      ensures sweepTriangles == [] && targetTriangles == [] && labels == [] && amountPerTargetTriangle == []
    {
      sweepTriangles := [];
      targetTriangles := [];
      labels := [];
      amountPerTargetTriangle := [];
    }

    /** The loop of Read over the sheep for one sector, starting from 0. */
    static method TallySector(tr: Transcendentals, mode: SensorMode, triangle: Triangle, sheepLocations: seq<Point>)
        returns (v: real)
      requires ValidTranscendentals(tr)
      ensures v == Tally(tr, mode, triangle, sheepLocations)
    {
      v := 0.0;
      var j := 0;
      while j < |sheepLocations|
        invariant 0 <= j <= |sheepLocations|
        invariant v == Tally(tr, mode, triangle, sheepLocations[..j])
      {
        var p := sheepLocations[j];
        assert sheepLocations[..j + 1][..j] == sheepLocations[..j];
        if PtInTriangle(p, triangle.apex, triangle.left, triangle.right) {
          if mode.outputIsDistance {
            var dist := Distance(tr.sqrt, p, triangle.apex) / SheepVisionDepth;
            if v == 0.0 || dist < v {
              v := dist;
            }
          } else {
            v := v + 1.0;
          }
        }
        j := j + 1;
      }
      assert sheepLocations[..j] == sheepLocations;
    }

    /** The triangle of the sector whose first bearing is `degrees`, and where its number is drawn. */
    static method SectorShape(tr: Transcendentals, angle: real, location: Point, degrees: real)
        returns (triangle: Triangle, mark: Point)
      requires ValidTranscendentals(tr)
      ensures var rMin := DegreesInRadians(degrees);
              triangle == Triangle(location, Corner(tr, location, SheepVisionDepth, rMin),
                                   Corner(tr, location, SheepVisionDepth, rMin + DegreesInRadians(angle)))
      ensures mark == Point((triangle.left.x + triangle.right.x) / 2.0, (triangle.left.y + triangle.right.y) / 2.0)
    {
      var rMin := DegreesInRadians(degrees);
      var rMax := rMin + DegreesInRadians(angle);
      var p1 := Point(Cos(tr, rMin) * SheepVisionDepth + location.x, Sin(tr, rMin) * SheepVisionDepth + location.y);
      var p2 := Point(Cos(tr, rMax) * SheepVisionDepth + location.x, Sin(tr, rMax) * SheepVisionDepth + location.y);
      triangle := Triangle(location, p1, p2);
      mark := Point((p1.x + p2.x) / 2.0, (p1.y + p2.y) / 2.0);
    }

    /** A sector's value: the tally, scaled by the flock size when counting, then 1 for anything positive when binary. */
    static method ReadValue(tr: Transcendentals, mode: SensorMode, triangle: Triangle, sheepLocations: seq<Point>)
        returns (v: real)
      requires ValidTranscendentals(tr)
      requires mode.outputIsDistance || 0 < |sheepLocations|
      ensures v == SectorValue(tr, mode, triangle, sheepLocations)
    {
      v := TallySector(tr, mode, triangle, sheepLocations);
      if !mode.outputIsDistance {
        v := v / |sheepLocations| as real;
      }
      if mode.binary && v > 0.0 {
        v := 1.0;
      }
    }

    /**
     * One pass of Read's loop: the sector starting at bearing `degrees`, its
     * label and its value, appended to what the earlier sectors produced.
     */
    static method ReadSector(tr: Transcendentals, mode: SensorMode, angle: real, facing: real, location: Point,
                             sheepLocations: seq<Point>, index: nat, degrees: real, ghost values: seq<real>,
                             sweep: seq<Triangle>, marks: seq<Point>, targets: seq<Triangle>, amounts: seq<real>)
        returns (v: real, sweep': seq<Triangle>, marks': seq<Point>, targets': seq<Triangle>, amounts': seq<real>)
      requires ValidTranscendentals(tr)
      requires mode.outputIsDistance || 0 < |sheepLocations|
      requires degrees == SectorStart(facing, angle, index)
      requires Swept(tr, mode, facing, angle, location, sheepLocations, index, values, sweep, marks, targets, amounts)
      ensures Swept(tr, mode, facing, angle, location, sheepLocations, index + 1, values + [v], sweep', marks', targets', amounts')
    {
      var triangle, mark := SectorShape(tr, angle, location, degrees);
      assert triangle == SectorTriangle(tr, facing, angle, location, index);
      marks' := marks + [mark];
      sweep' := sweep + [triangle];
      v := ReadValue(tr, mode, triangle, sheepLocations);
      TargetsNext(tr, mode, facing, angle, location, sheepLocations, index, triangle, v);
      targets', amounts' := targets, amounts;
      if v > 0.0 {
        targets' := targets + [triangle];
        amounts' := amounts + [v];
      }
    }

    /**
     * Read: one value per sector, sector `i` reporting SectorValue of its
     * triangle; the lists are refilled with every sector's triangle and
     * label and with the triangles and values of the sectors that reported
     * something positive.
     */
    method Read(tr: Transcendentals, mode: SensorMode, angle: real, facing: real, location: Point, sheepLocations: seq<Point>)
        returns (output: array<real>)
      requires ValidTranscendentals(tr) && 0.0 < angle
      requires mode.outputIsDistance || 0 < |sheepLocations|
      modifies this
      ensures fresh(output) && output.Length == SampleCount(angle)
      ensures output[..] == SectorValues(tr, mode, facing, angle, location, sheepLocations, output.Length)
      ensures |sweepTriangles| == |labels| == output.Length
      ensures forall i :: 0 <= i < output.Length ==>
                sweepTriangles[i] == SectorTriangle(tr, facing, angle, location, i) &&
                labels[i] == SectorLabel(tr, facing, angle, location, i)
      ensures targetTriangles == TargetTriangles(tr, mode, facing, angle, location, sheepLocations, output.Length)
      ensures amountPerTargetTriangle == TargetAmounts(tr, mode, facing, angle, location, sheepLocations, output.Length)
    {
      var sweep: seq<Triangle> := [];
      var marks: seq<Point> := [];
      var targets: seq<Triangle> := [];
      var amounts: seq<real> := [];
      var samplePoints := SampleCount(angle);
      output := new real[samplePoints];
      var degrees := 0.0 - angle / 2.0 + facing;
      var index := 0;
      while index < samplePoints
        invariant 0 <= index <= samplePoints == output.Length
        invariant degrees == SectorStart(facing, angle, index)
        invariant Swept(tr, mode, facing, angle, location, sheepLocations, index, output[..index], sweep, marks, targets, amounts)
      {
        ghost var before := output[..index];
        var v;
        v, sweep, marks, targets, amounts :=
          ReadSector(tr, mode, angle, facing, location, sheepLocations, index, degrees, output[..index], sweep, marks, targets, amounts);
        output[index] := v;
        assert output[..index + 1] == before + [v];
        SectorStartNext(facing, angle, index);
        degrees := degrees + angle;
        index := index + 1;
      }
      sweepTriangles, labels, targetTriangles, amountPerTargetTriangle := sweep, marks, targets, amounts;
      assert output[..] == output[..index];
    }
  }
}
