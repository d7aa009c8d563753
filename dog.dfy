/**
 * The sheep dog (Predator/Dog.cs). Each move the dog builds the input
 * vector of its network from its sensors and what it knows of its flock,
 * asks the network where to go, turns and sets its speed accordingly,
 * steps, backs off from fences it is about to cross, and stays inside the
 * playing field. The network itself is the NeuralNetwork.Network it is
 * given; the flock is the Flock.Flock it herds.
 */
module Dog {
  import opened Numerics
  import opened MathUtils
  import opened World
  import opened Sheep
  import opened Flock
  import opened SheepSensor
  import opened WallSensor
  import NN = NeuralNetwork
  import opened LearnToHerd

  /** DogSpeedMultiplier. */
  const DogSpeedMultiplier: real := 4.0

  /** DogMaximumVelocityInAnyDirection. */
  const DogMaximumVelocity: real := 1.3

  /** ClosestDogMayIntentionallyGetToSheepMass: hard-coded to 57 pixels. */
  const ClosestDogMayGetToSheepMass: real := 57.0

  /** The most the dog turns in one move when it heads for a desired position, in degrees. */
  const MaxTurn: real := 30.0

  /** How far the dog must stay from the edges of the playing field. */
  const FieldMargin: real := 3.0

  /** How near the point of a fence closest to the dog must be for the dog to back off. */
  const FenceBackOff: real := 6.0

  /*
   * Configuration.
   */

  /**
   * The Config values the dog reads: the input toggles, the sheep sensor's
   * output mode, AIZeroRelativeAnglesInSensors and AIDeriveOptimalPositionForDog.
   */
  datatype DogConfig = DogConfig(toggles: InputToggles, sensorMode: SensorMode, zeroRelativeAngles: bool, deriveOptimalPosition: bool)

  /** The sensors have a positive sector angle and a non-negative number of wall samples. */
  predicate ValidConfig(cfg: DogConfig)
  {
    0.0 < cfg.toggles.sheepVisionAngleInDegrees && 0 <= cfg.toggles.wallSensorSamplePoints
  }

  /** The bearing the sensors are read at: 0 when angles are relative to the dog, the dog's facing otherwise. */
  function SensorFacing(cfg: DogConfig, facing: real): real
  {
    if cfg.zeroRelativeAngles then 0.0 else facing
  }

  /*
   * The inputs to the network.
   */

  /** What InputsToAI looks at: the dog, its flock and the world, as values. */
  datatype Observation = Observation(
    facing: real,
    position: Point,
    centreOfMass: Point,
    sheepPositions: seq<Point>,
    fences: seq<Polyline>,
    flockHeading: real,
    wayPointHeading: real,
    width: int,
    height: int)

  /** `a` as a share of an extent of the playing field. */
  function Share(a: real, extent: int): real
    requires extent != 0
  {
    a / extent as real
  }

  /** The inputs gathered so far, followed by `xs` when that input is switched on. */
  function Also(acc: seq<real>, on: bool, xs: seq<real>): (r: seq<real>)
    ensures |r| == |acc| + When(on, |xs|)
  {
    if on then acc + xs else acc
  }

  /**
   * The inputs that come from the sensors, in the order the dog appends
   * them: its own facing, mapped from [0, 360] degrees to [-1, 1], then the
   * sheep sensor's sectors and the wall sensor's samples, both read at the
   * sensor bearing.
   */
  function SensorInputs(tr: Transcendentals, cfg: DogConfig, facing: real, position: Point,
                        sheepPositions: seq<Point>, fences: seq<Polyline>): (r: seq<real>)
    requires ValidTranscendentals(tr) && ValidConfig(cfg) && 0 < |sheepPositions|
    ensures |r| == When(cfg.toggles.knowsAngleOfDog, 1) + When(cfg.toggles.useSheepSensor, SheepSensorWidth(cfg.toggles)) +
                   When(cfg.toggles.usingWallSensors, cfg.toggles.wallSensorSamplePoints)
  {
    var t := cfg.toggles;
    var bearing := SensorFacing(cfg, facing);
    var r := Also([], t.knowsAngleOfDog, [(DegreesInRadians(facing) - Pi) / Pi]);
    var r := Also(r, t.useSheepSensor, SectorValues(tr, cfg.sensorMode, bearing, t.sheepVisionAngleInDegrees, position,
                                                    sheepPositions, SampleCount(t.sheepVisionAngleInDegrees)));
    Also(r, t.usingWallSensors, WallValues(tr, bearing, position, fences, t.wallSensorSamplePoints))
  }

  /**
   * The inputs about where the flock is from the dog: the distance to its
   * centre of mass over the depth of vision, the bearing to it over pi, and
   * the offset to it as shares of the playing field.
   */
  function HerdInputs(tr: Transcendentals, t: InputToggles, position: Point, com: Point, width: int, height: int): (r: seq<real>)
    requires ValidTranscendentals(tr) && width != 0 && height != 0
    ensures |r| == When(t.knowsDistanceToSheepCenterOfMass, 1) + When(t.knowsAngleRelativeToHerd, 1) +
                   When(t.knowsRelativeDistanceDogToCM, 2)
  {
    var r := Also([], t.knowsDistanceToSheepCenterOfMass, [Distance(tr.sqrt, position, com) / SheepVisionDepth]);
    var r := Also(r, t.knowsAngleRelativeToHerd, [Atan2(tr, com.y - position.y, com.x - position.x) / Pi]);
    Also(r, t.knowsRelativeDistanceDogToCM, [Share(com.x - position.x, width), Share(com.y - position.y, height)])
  }

  /**
   * The inputs about the field: the dog's own position as shares of the
   * playing field, the flock's heading over pi, and the flock's centre of
   * mass as shares of the field.
   */
  function FieldInputs(t: InputToggles, position: Point, com: Point, flockHeading: real, width: int, height: int): (r: seq<real>)
    requires width != 0 && height != 0
    ensures |r| == When(t.knowsWhereDogIsOnTheScreen, 2) + When(t.knowsAngleSheepAreMoving, 1) +
                   When(t.knowsPositionOfCenterOfMass, 2)
  {
    var r := Also([], t.knowsWhereDogIsOnTheScreen, [Share(position.x, width), Share(position.y, height)]);
    var r := Also(r, t.knowsAngleSheepAreMoving, [flockHeading / Pi]);
    Also(r, t.knowsPositionOfCenterOfMass, [Share(com.x, width), Share(com.y, height)])
  }

  /** The last inputs: the heading to the next way point over pi, and how close the dog may get as a share of the width. */
  function RouteInputs(t: InputToggles, wayPointHeading: real, width: int): (r: seq<real>)
    requires width != 0
    ensures |r| == When(t.knowsAngleSheepNeedToHead, 1) + When(t.knowsHowCloseItCanGetToSheep, 1)
  {
    var r := Also([], t.knowsAngleSheepNeedToHead, [wayPointHeading / Pi]);
    Also(r, t.knowsHowCloseItCanGetToSheep, [Share(ClosestDogMayGetToSheepMass, width)])
  }

  /** InputsToAI: every enabled input, in the order the dog appends them; as many as the network's input layer needs. */
  function Inputs(tr: Transcendentals, cfg: DogConfig, o: Observation): (r: seq<real>)
    requires ValidTranscendentals(tr) && ValidConfig(cfg)
    requires 0 < |o.sheepPositions| && o.width != 0 && o.height != 0
    ensures |r| == RequiredInputWidth(cfg.toggles)
  {
    SensorInputs(tr, cfg, o.facing, o.position, o.sheepPositions, o.fences) +
    HerdInputs(tr, cfg.toggles, o.position, o.centreOfMass, o.width, o.height) +
    FieldInputs(cfg.toggles, o.position, o.centreOfMass, o.flockHeading, o.width, o.height) +
    RouteInputs(cfg.toggles, o.wayPointHeading, o.width)
  }

  /**
   * The input layer sized by DetermineRequiredNumberOfInputNeurons is one
   * short of the inputs whenever the dog is told how close it may get to
   * the sheep.
   */
  lemma InputsOutgrowInputWidth(tr: Transcendentals, cfg: DogConfig, o: Observation)
    requires ValidTranscendentals(tr) && ValidConfig(cfg)
    requires 0 < |o.sheepPositions| && o.width != 0 && o.height != 0
    ensures cfg.toggles.knowsHowCloseItCanGetToSheep ==> |Inputs(tr, cfg, o)| == InputWidth(cfg.toggles) + 1
    ensures !cfg.toggles.knowsHowCloseItCanGetToSheep ==> |Inputs(tr, cfg, o)| == InputWidth(cfg.toggles)
  {
  }

  /** The shipped configuration: sectors relative to the dog, sheep counted as a share of the flock. */
  const DefaultConfig: DogConfig := DogConfig(DefaultToggles, SensorMode(false, false), true, true)

  /**
   * With the shipped configuration the network sees the 63 sheep sectors,
   * read as if the dog faced bearing 0, and then the heading to the next
   * way point over pi.
   */
  lemma DefaultInputs(tr: Transcendentals, o: Observation)
    requires ValidTranscendentals(tr)
    requires 0 < |o.sheepPositions| && o.width != 0 && o.height != 0
    ensures Inputs(tr, DefaultConfig, o) ==
              SectorValues(tr, SensorMode(false, false), 0.0, 5.703125, o.position, o.sheepPositions, 63) +
              [o.wayPointHeading / Pi]
  {
    DefaultInputWidth();
  }

  /**
   * What the dog observes when it faces `facing` at `position`, given its
   * flock's sheep, fences and field, and the way point the flock is to make
   * for: the centre of mass of the sheep, the heading of the sum of their
   * velocities, and the heading from the centre of mass to the way point.
   */
  function ObservationOf(tr: Transcendentals, facing: real, position: Point, sheepPositions: seq<Point>,
                         velocities: seq<Point>, fences: seq<Polyline>, target: Point, width: int, height: int): (o: Observation)
    requires 0 < |sheepPositions|
    ensures o.centreOfMass == Centroid(sheepPositions) && o.sheepPositions == sheepPositions
  {
    var com := Centroid(sheepPositions);
    var v := SumPoints(velocities);
    Observation(facing, position, com, sheepPositions, fences, Atan2(tr, v.y, v.x),
                Atan2(tr, target.y - com.y, target.x - com.x), width, height)
  }

  /** What the dog observes of `flock` as it now is. */
  function ObservationAt(tr: Transcendentals, flock: Flock, facing: real, position: Point): Observation
    requires flock.Valid()
    reads flock, flock.sheep
  {
    ObservationOf(tr, facing, position, Positions(flock.sheep), Velocities(flock.sheep), flock.fences,
                  flock.wayPoints[flock.nextWayPointToHeadTo], flock.penWidth, flock.penHeight)
  }

  /*
   * What InputsToAI does to the flock.
   */

  /** Some sheep is nearer to `position` than the depth of vision. */
  predicate InSight(tr: Transcendentals, position: Point, sheepPositions: seq<Point>)
    requires ValidTranscendentals(tr)
  {
    exists i :: 0 <= i < |sheepPositions| && Distance(tr.sqrt, position, sheepPositions[i]) < SheepVisionDepth
  }

  /** SheepWereSensedInObservableArea's consequence: a flock whose dog sees none of its sheep fails as OUT OF SIGHT. */
  function Sighted(tr: Transcendentals, p: Progress, position: Point, sheepPositions: seq<Point>): (q: Progress)
    requires ValidTranscendentals(tr)
    ensures q.cursor == p.cursor && q.checkpoint == p.checkpoint
    ensures q.failed <==> p.failed || !InSight(tr, position, sheepPositions)
  {
    if InSight(tr, position, sheepPositions) then p else p.(failed := true, reason := OutOfSight)
  }

  /**
   * A flock's progress after the dog at `position` has built its inputs:
   * the sighting check, and then, when the network is told the heading to
   * the next way point, AngleToNextWayPoint's check.
   */
  ghost function ProgressAfterInputs(tr: Transcendentals, cfg: DogConfig, now: real, p: Progress, position: Point,
                                     sheepPositions: seq<Point>, fences: seq<Polyline>, wayPoints: seq<Point>): (q: Progress)
    requires ValidTranscendentals(tr) && 0 < |sheepPositions| && 0 <= p.cursor < |wayPoints|
    ensures p.cursor <= q.cursor < |wayPoints|
    ensures p.failed ==> q.failed
    ensures !InSight(tr, position, sheepPositions) ==> q.failed
    ensures q.failed && !p.failed ==> q.reason != Running
    ensures !q.failed ==> q.reason == p.reason
    ensures !cfg.toggles.knowsAngleSheepNeedToHead ==> q.cursor == p.cursor && q.checkpoint == p.checkpoint
    ensures q.cursor != p.cursor ==> q.checkpoint == now
  {
    var p1 := Sighted(tr, p, position, sheepPositions);
    if cfg.toggles.knowsAngleSheepNeedToHead then WayPointChecked(tr, now, p1, position, sheepPositions, fences, wayPoints)
    else p1
  }

  /*
   * Steering.
   */

  /**
   * SetDesiredAngleAndSpeedUsingAItoSteerTheDog's speed: the second output
   * times the multiplier, 0.5 when that is 0, clamped to the maximum
   * velocity. The dog never stands still, and it moves backwards exactly
   * when the output is negative.
   */
  function HeadingSpeed(output: real): (s: real)
    ensures -DogMaximumVelocity <= s <= DogMaximumVelocity && s != 0.0
    ensures (0.0 < s <==> 0.0 <= output) && (s < 0.0 <==> output < 0.0)
    ensures output == 0.0 ==> s == 0.5
    ensures output != 0.0 && -DogMaximumVelocity <= output * DogSpeedMultiplier <= DogMaximumVelocity ==>
              s == output * DogSpeedMultiplier
  {
    var raw := output * DogSpeedMultiplier;
    Clamp(if raw == 0.0 then 0.5 else raw, -DogMaximumVelocity, DogMaximumVelocity)
  }

  /** The bearing from `from` to `to`, in degrees. */
  function BearingInDegrees(tr: Transcendentals, from: Point, to: Point): real
  {
    RadiansInDegrees(Atan2(tr, to.y - from.y, to.x - from.x))
  }

  /**
   * The signed turn, in degrees, from `facing` to `target` the short way
   * round: (target - facing + 540) % 360 - 180 with the C# remainder.
   */
  function OptimalDirection(target: real, facing: real): real
  {
    CsRem(target - facing + 540.0, 360.0) - 180.0
  }

  /**
   * The optimal direction differs from the raw difference by whole turns;
   * it lies in [-180, 180) whenever the remainder's argument is not
   * negative (always, for a facing in [0, 360] and an atan2 bearing), and
   * it is the raw difference itself when that is already in [-180, 180).
   */
  lemma OptimalDirectionIsShortest(target: real, facing: real)
    ensures IsWholeTurns(OptimalDirection(target, facing) - (target - facing))
    ensures 0.0 <= target - facing + 540.0 ==> -180.0 <= OptimalDirection(target, facing) < 180.0
    ensures -180.0 <= target - facing < 180.0 ==> OptimalDirection(target, facing) == target - facing
  {
    var a := target - facing + 540.0;
    var k := Trunc(a / 360.0);
    assert OptimalDirection(target, facing) - (target - facing) == 360.0 * (1 - k) as real;
    WholeTurnsOfInt(1 - k);
    if 0.0 <= a {
      assert k as real <= a / 360.0 < k as real + 1.0;
    }
    if -180.0 <= target - facing < 180.0 {
      assert 360.0 <= a < 720.0;
      assert 1.0 <= a / 360.0 < 2.0;
      assert k == 1;
    }
  }

  /**
   * The turn towards a desired bearing: the optimal direction, limited to
   * 30 degrees either way. It turns the short way, never past the target,
   * and reaches the target in one move when it is within 30 degrees.
   */
  function Turn(target: real, facing: real): (r: real)
    ensures -MaxTurn <= r <= MaxTurn
    ensures AbsReal(r) <= AbsReal(OptimalDirection(target, facing))
    ensures Sign(r) == Sign(OptimalDirection(target, facing))
    ensures -MaxTurn <= OptimalDirection(target, facing) <= MaxTurn ==> r == OptimalDirection(target, facing)
  {
    Clamp(OptimalDirection(target, facing), -MaxTurn, MaxTurn)
  }

  /**
   * The turn as SetAngleAndSpeedBasedOnDesiredPosition computes it: the
   * size comes from the raw difference of the bearings, clamped to 30, and
   * only the sign from the optimal direction.
   */
  function TurnAsWritten(target: real, facing: real): real
  {
    Clamp(AbsReal(target - facing), 0.0, MaxTurn) * Sign(OptimalDirection(target, facing)) as real
  }

  /** When the raw difference needs no wrapping the two turns agree. */
  lemma TurnsAgreeWithoutWrapping(target: real, facing: real)
    requires -180.0 <= target - facing < 180.0
    ensures TurnAsWritten(target, facing) == Turn(target, facing)
  {
    OptimalDirectionIsShortest(target, facing);
  }

  /**
   * Facing 355 degrees with the target at 5, the target is 10 degrees
   * away, but the turn as written is 30 degrees: the dog swings 20 degrees
   * past its target, to 25 (385 wrapped), where the intended turn ends at 5.
   */
  lemma TurnAsWrittenOvershoots()
    ensures OptimalDirection(5.0, 355.0) == 10.0
    ensures TurnAsWritten(5.0, 355.0) == 30.0
    ensures Turn(5.0, 355.0) == 10.0
    ensures IsClamp360(355.0 + TurnAsWritten(5.0, 355.0), 25.0)
    ensures IsClamp360(355.0 + Turn(5.0, 355.0), 5.0)
  {
    OptimalDirectionIsShortest(5.0, 355.0);
    WholeTurnsOfInt(-1);
  }

  /**
   * SetAngleAndSpeedBasedOnDesiredPosition's speed: the distance still to
   * go, clamped to the maximum velocity, so the dog stops on the spot when
   * it is within one step.
   */
  function ApproachSpeed(distance: real): (s: real)
    requires 0.0 <= distance
    ensures 0.0 <= s <= DogMaximumVelocity
    ensures distance <= DogMaximumVelocity ==> s == distance
    ensures DogMaximumVelocity < distance ==> s == DogMaximumVelocity
  {
    Clamp(distance, -DogMaximumVelocity, DogMaximumVelocity)
  }

  /** Where one step at `speed` along `facing` (in degrees) takes the dog. */
  function Stepped(tr: Transcendentals, position: Point, facing: real, speed: real): Point
  {
    var radians := DegreesInRadians(facing);
    Point(position.x + speed * Cos(tr, radians), position.y + speed * Sin(tr, radians))
  }

  /** The clamp that keeps the dog 3 pixels inside the playing field. */
  function Confine(p: Point, width: int, height: int): (r: Point)
    ensures 2.0 * FieldMargin <= width as real ==> FieldMargin <= r.x <= width as real - FieldMargin
    ensures 2.0 * FieldMargin <= height as real ==> FieldMargin <= r.y <= height as real - FieldMargin
    ensures FieldMargin <= p.x <= width as real - FieldMargin && FieldMargin <= p.y <= height as real - FieldMargin ==> r == p
  {
    Point(Clamp(p.x, FieldMargin, width as real - FieldMargin), Clamp(p.y, FieldMargin, height as real - FieldMargin))
  }

  /** The part of a dog that Move changes. */
  datatype Motion = Motion(position: Point, desiredPosition: Point, angle: real, speed: real)

  function MotionOf(dog: Dog): Motion
    reads dog
  {
    Motion(dog.position, dog.desiredPosition, dog.angle, dog.speed)
  }

  /**
   * The network's outputs steer the dog, which stays where it stands. With
   * AIDeriveOptimalPosition the outputs place the desired position relative
   * to the centre of mass `com`, and the dog turns towards it and approaches
   * it; otherwise they give the turn and the speed.
   */
  function Steered(tr: Transcendentals, cfg: DogConfig, output: seq<real>, com: Point, width: int, height: int,
                   m: Motion): (r: Motion)
    requires ValidTranscendentals(tr) && 2 <= |output|
    ensures r.position == m.position
    ensures 0.0 <= r.angle <= 360.0 && -DogMaximumVelocity <= r.speed <= DogMaximumVelocity
    ensures cfg.deriveOptimalPosition ==> 0.0 <= r.speed
    ensures !cfg.deriveOptimalPosition ==> r.desiredPosition == m.desiredPosition && r.speed != 0.0
  {
    if cfg.deriveOptimalPosition then
      var desired := Point(com.x + output[0] * width as real, com.y + output[1] * height as real);
      var turn := Turn(BearingInDegrees(tr, m.position, desired), m.angle);
      Motion(m.position, desired, Wrapped360(m.angle + turn), ApproachSpeed(Distance(tr.sqrt, m.position, desired)))
    else
      Motion(m.position, m.desiredPosition, Wrapped360(m.angle + output[0]), HeadingSpeed(output[1]))
  }

  /** Where the end of Move puts a dog at `position`: one step, the fences' correction, the field's margins. */
  function Advanced(tr: Transcendentals, position: Point, facing: real, speed: real, fences: seq<Polyline>,
                    width: int, height: int): (r: Point)
    requires ValidTranscendentals(tr)
    ensures 2.0 * FieldMargin <= width as real ==> FieldMargin <= r.x <= width as real - FieldMargin
    ensures 2.0 * FieldMargin <= height as real ==> FieldMargin <= r.y <= height as real - FieldMargin
  {
    var stepped := Stepped(tr, position, facing, speed);
    Confine(Add(stepped, FencePushFrom(tr, stepped, Point(0.0, 0.0), Segments(fences))), width, height)
  }
  /** Move's effect on the dog, given the network's outputs: steered, then advanced. */
  function Moved(tr: Transcendentals, cfg: DogConfig, output: seq<real>, com: Point, fences: seq<Polyline>,
                 width: int, height: int, m: Motion): (r: Motion)
    requires ValidTranscendentals(tr) && 2 <= |output|
    ensures 0.0 <= r.angle <= 360.0 && -DogMaximumVelocity <= r.speed <= DogMaximumVelocity
    ensures 2.0 * FieldMargin <= width as real ==> FieldMargin <= r.position.x <= width as real - FieldMargin
    ensures 2.0 * FieldMargin <= height as real ==> FieldMargin <= r.position.y <= height as real - FieldMargin
    ensures !cfg.deriveOptimalPosition ==> r.desiredPosition == m.desiredPosition
  {
    var s := Steered(tr, cfg, output, com, width, height, m);
    s.(position := Advanced(tr, s.position, s.angle, s.speed, fences, width, height))
  }


  /*
   * Backing off from fences.
   */

  /**
   * What one fence segment adds to the correction `c` of the dog at
   * `position`: when the point of the segment closest to the corrected
   * position lies on the segment and within 6 of the dog, half of the way
   * from the dog to that point is taken off. A segment of zero length
   * makes the source divide zero by zero, and its comparisons with the
   * result are false, so it adds nothing.
   */
  function SegmentPush(tr: Transcendentals, position: Point, c: Point, s: Segment): Point
    requires ValidTranscendentals(tr)
  {
    if s.from == s.to then c
    else
      var pr := IsOnLine(s.from, s.to, Add(position, c));
      if pr.onLine && Distance(tr.sqrt, pr.closest, position) < FenceBackOff then
        Point(c.x - (pr.closest.x - position.x) / 2.0, c.y - (pr.closest.y - position.y) / 2.0)
      else c
  }

  /** The correction after the segments, in order, starting from `c`. */
  function FencePushFrom(tr: Transcendentals, position: Point, c: Point, segments: seq<Segment>): Point
    requires ValidTranscendentals(tr)
  {
    if |segments| == 0 then c
    else SegmentPush(tr, position, FencePushFrom(tr, position, c, segments[..|segments| - 1]), segments[|segments| - 1])
  }

  /** Pushing through a concatenation is pushing through the second part from the result of the first. */
  lemma {:induction false} FencePushFromAppend(tr: Transcendentals, position: Point, c: Point, a: seq<Segment>, b: seq<Segment>)
    requires ValidTranscendentals(tr)
    ensures FencePushFrom(tr, position, c, a + b) == FencePushFrom(tr, position, FencePushFrom(tr, position, c, a), b)
  {
    if |b| == 0 {
      assert a + b == a;
    } else {
      FencePushFromAppend(tr, position, c, a, b[..|b| - 1]);
      assert (a + b)[..|a + b| - 1] == a + b[..|b| - 1];
    }
  }

  /** The segment is one the dog at `position`, uncorrected, is about to cross. */
  ghost predicate Touches(tr: Transcendentals, position: Point, s: Segment)
    requires ValidTranscendentals(tr)
  {
    s.from != s.to && IsOnLine(s.from, s.to, position).onLine &&
    Distance(tr.sqrt, IsOnLine(s.from, s.to, position).closest, position) < FenceBackOff
  }

  /** A dog that touches no fence segment is not moved. */
  lemma {:induction false} NoFenceNoPush(tr: Transcendentals, position: Point, segments: seq<Segment>)
    requires ValidTranscendentals(tr)
    requires forall k :: 0 <= k < |segments| ==> !Touches(tr, position, segments[k])
    ensures FencePushFrom(tr, position, Point(0.0, 0.0), segments) == Point(0.0, 0.0)
  {
    if |segments| > 0 {
      var init := segments[..|segments| - 1];
      assert forall k :: 0 <= k < |init| ==> init[k] == segments[k];
      NoFenceNoPush(tr, position, init);
      assert Add(position, Point(0.0, 0.0)) == position;
    }
  }

  /**
   * The first segment the dog touches moves it straight away from the
   * closest point of the fence, to one and a half times its distance.
   */
  lemma PushBacksAway(tr: Transcendentals, position: Point, s: Segment)
    requires ValidTranscendentals(tr) && Touches(tr, position, s)
    ensures var q := IsOnLine(s.from, s.to, position).closest;
            Sub(Add(position, SegmentPush(tr, position, Point(0.0, 0.0), s)), q) == Scale(1.5, Sub(position, q))
  {
    assert Add(position, Point(0.0, 0.0)) == position;
  }

  /** One pass of the inner loop of PreventDogJumpingFences: the segment from `point1` to `point2`. */
  method PushFromSegment(tr: Transcendentals, position: Point, point1: Point, point2: Point, c: Point) returns (c': Point)
    requires ValidTranscendentals(tr)
    ensures c' == SegmentPush(tr, position, c, Segment(point1, point2))
  {
    c' := c;
    if point1 != point2 {
      var pr := IsOnLine(point1, point2, Point(position.x + c.x, position.y + c.y));
      if pr.onLine && Distance(tr.sqrt, pr.closest, position) < FenceBackOff {
        c' := Point(c.x - (pr.closest.x - position.x) / 2.0, c.y - (pr.closest.y - position.y) / 2.0);
      }
    }
  }

  /** The correction from one fence, continuing from `c`: the inner loop of PreventDogJumpingFences. */
  method PushFromFence(tr: Transcendentals, position: Point, fence: Polyline, c: Point) returns (c': Point)
    requires ValidTranscendentals(tr)
    ensures c' == FencePushFrom(tr, position, c, SegmentsOf(fence))
  {
    c' := c;
    var i := 0;
    while i < |fence| - 1
      invariant 0 <= i && (i <= |fence| - 1 || i == 0)
      invariant c' == FencePushFrom(tr, position, c, SegmentsOf(fence)[..i])
    {
      assert SegmentsOf(fence)[..i + 1][..i] == SegmentsOf(fence)[..i];
      c' := PushFromSegment(tr, position, fence[i], fence[i + 1], c');
      i := i + 1;
    }
    assert SegmentsOf(fence)[..i] == SegmentsOf(fence);
  }

  /**
   * The sensor part of InputsToAI: the dog's facing, then the sheep and
   * wall sensors, each a fresh sensor read at the sensor bearing.
   */
  method ReadSensors(tr: Transcendentals, cfg: DogConfig, facing: real, position: Point,
                     sheepPositions: seq<Point>, fences: seq<Polyline>) returns (inputs: seq<real>)
    requires ValidTranscendentals(tr) && ValidConfig(cfg) && 0 < |sheepPositions|
    ensures inputs == SensorInputs(tr, cfg, facing, position, sheepPositions, fences)
  {
    var t := cfg.toggles;
    inputs := [];
    if t.knowsAngleOfDog {
      inputs := inputs + [(DegreesInRadians(facing) - Pi) / Pi];
    }
    var bearing := SensorFacing(cfg, facing);
    if t.useSheepSensor {
      var sensor := new SheepSensor();
      var output := sensor.Read(tr, cfg.sensorMode, t.sheepVisionAngleInDegrees, bearing, position, sheepPositions);
      inputs := inputs + output[..];
    }
    if t.usingWallSensors {
      var wallSensor := new WallSensor();
      var output := wallSensor.Read(tr, bearing, position, fences, t.wallSensorSamplePoints);
      inputs := inputs + output[..];
    }
  }

  /** The inputs of InputsToAI about where the flock is from the dog. */
  method ReadHerd(tr: Transcendentals, t: InputToggles, position: Point, com: Point, width: int, height: int)
      returns (inputs: seq<real>)
    requires ValidTranscendentals(tr) && width != 0 && height != 0
    ensures inputs == HerdInputs(tr, t, position, com, width, height)
  {
    inputs := [];
    if t.knowsDistanceToSheepCenterOfMass {
      inputs := inputs + [Distance(tr.sqrt, position, com) / SheepVisionDepth];
    }
    if t.knowsAngleRelativeToHerd {
      inputs := inputs + [Atan2(tr, com.y - position.y, com.x - position.x) / Pi];
    }
    if t.knowsRelativeDistanceDogToCM {
      inputs := inputs + [Share(com.x - position.x, width), Share(com.y - position.y, height)];
    }
  }

  /** The inputs of InputsToAI about the field: the dog's position, the flock's heading and its centre of mass. */
  method ReadField(t: InputToggles, position: Point, com: Point, flockHeading: real, width: int, height: int)
      returns (inputs: seq<real>)
    requires width != 0 && height != 0
    ensures inputs == FieldInputs(t, position, com, flockHeading, width, height)
  {
    inputs := [];
    if t.knowsWhereDogIsOnTheScreen {
      inputs := inputs + [Share(position.x, width), Share(position.y, height)];
    }
    if t.knowsAngleSheepAreMoving {
      inputs := inputs + [flockHeading / Pi];
    }
    if t.knowsPositionOfCenterOfMass {
      inputs := inputs + [Share(com.x, width), Share(com.y, height)];
    }
  }

  /** The last inputs of InputsToAI: the heading to the next way point, and how close the dog may get. */
  method ReadRoute(t: InputToggles, wayPointHeading: real, width: int) returns (inputs: seq<real>)
    requires width != 0
    ensures inputs == RouteInputs(t, wayPointHeading, width)
  {
    inputs := [];
    if t.knowsAngleSheepNeedToHead {
      inputs := inputs + [wayPointHeading / Pi];
    }
    if t.knowsHowCloseItCanGetToSheep {
      inputs := inputs + [Share(ClosestDogMayGetToSheepMass, width)];
    }
  }

  /** The inputs of an observation, in the order Inputs lists them. */
  method Assemble(tr: Transcendentals, cfg: DogConfig, o: Observation) returns (inputs: seq<real>)
    requires ValidTranscendentals(tr) && ValidConfig(cfg)
    requires 0 < |o.sheepPositions| && o.width != 0 && o.height != 0
    ensures inputs == Inputs(tr, cfg, o)
  {
    var sensed := ReadSensors(tr, cfg, o.facing, o.position, o.sheepPositions, o.fences);
    var herd := ReadHerd(tr, cfg.toggles, o.position, o.centreOfMass, o.width, o.height);
    var field := ReadField(cfg.toggles, o.position, o.centreOfMass, o.flockHeading, o.width, o.height);
    var route := ReadRoute(cfg.toggles, o.wayPointHeading, o.width);
    inputs := sensed + herd + field + route;
  }

  /**
   * The flock's heading and the heading to the next way point reach the
   * network only when it is told them: two observations that differ only
   * in headings it is not told give the same inputs.
   */
  lemma {:induction false} InputsIgnoreWhatIsNotAsked(tr: Transcendentals, cfg: DogConfig, o1: Observation, o2: Observation)
    requires ValidTranscendentals(tr) && ValidConfig(cfg)
    requires 0 < |o1.sheepPositions| && o1.width != 0 && o1.height != 0
    requires o2 == o1.(flockHeading := o2.flockHeading, wayPointHeading := o2.wayPointHeading)
    requires cfg.toggles.knowsAngleSheepAreMoving ==> o1.flockHeading == o2.flockHeading
    requires cfg.toggles.knowsAngleSheepNeedToHead ==> o1.wayPointHeading == o2.wayPointHeading
    ensures Inputs(tr, cfg, o1) == Inputs(tr, cfg, o2)
  {
  }

  /**
   * An observation put together as InputsToAI does it, with the flock's
   * heading and the heading to the next way point filled in only when the
   * network is told them, gives the inputs of the full observation.
   */
  lemma InputsOfObservation(tr: Transcendentals, cfg: DogConfig, o: Observation, velocities: seq<Point>, target: Point)
    requires ValidTranscendentals(tr) && ValidConfig(cfg)
    requires 0 < |o.sheepPositions| && o.width != 0 && o.height != 0
    requires o.centreOfMass == Centroid(o.sheepPositions)
    requires cfg.toggles.knowsAngleSheepAreMoving ==> var v := SumPoints(velocities); o.flockHeading == Atan2(tr, v.y, v.x)
    requires cfg.toggles.knowsAngleSheepNeedToHead ==>
               o.wayPointHeading == Atan2(tr, target.y - o.centreOfMass.y, target.x - o.centreOfMass.x)
    ensures Inputs(tr, cfg, o) ==
              Inputs(tr, cfg, ObservationOf(tr, o.facing, o.position, o.sheepPositions, velocities, o.fences, target, o.width, o.height))
  {
    InputsIgnoreWhatIsNotAsked(tr, cfg, o, ObservationOf(tr, o.facing, o.position, o.sheepPositions, velocities, o.fences, target, o.width, o.height));
  }

  /** The correction from all fences: the outer loop of PreventDogJumpingFences. */
  method PushFromFences(tr: Transcendentals, position: Point, fences: seq<Polyline>) returns (c: Point)
    requires ValidTranscendentals(tr)
    ensures c == FencePushFrom(tr, position, Point(0.0, 0.0), Segments(fences))
  {
    c := Point(0.0, 0.0);
    var f := 0;
    while f < |fences|
      invariant 0 <= f <= |fences|
      invariant c == FencePushFrom(tr, position, Point(0.0, 0.0), Segments(fences[..f]))
    {
      assert fences[..f + 1][..f] == fences[..f];
      FencePushFromAppend(tr, position, Point(0.0, 0.0), Segments(fences[..f]), SegmentsOf(fences[f]));
      c := PushFromFence(tr, position, fences[f], c);
      f := f + 1;
    }
    assert fences[..f] == fences;
  }

  /*
   * The dog.
   */

  class Dog {
    /** The id of the dog, of its flock and of its network. */
    const id: int
    const flock: Flock
    var position: Point
    var desiredPosition: Point
    /** AngleDogIsFacingInDegrees. */
    var angle: real
    var speed: real

    /** The flock is valid, the dog faces a bearing in [0, 360], and the playing field has a size. */
    ghost predicate Valid()
      reads this, flock
    {
      flock.Valid() && 0.0 <= angle <= 360.0 && 0 < flock.penWidth && 0 < flock.penHeight
    }

    /** A dog at (10, 10), wanting to be there, facing bearing 0 and standing still. */
    constructor(id: int, flock: Flock)
      ensures this.id == id && this.flock == flock
      ensures position == Point(10.0, 10.0) && desiredPosition == Point(10.0, 10.0)
      ensures angle == 0.0 && speed == 0.0
    {
      this.id := id;
      this.flock := flock;
      position := Point(10.0, 10.0);
      desiredPosition := Point(10.0, 10.0);
      angle := 0.0;
      speed := 0.0;
    }

    /** SheepWereSensedInObservableArea: the sheep are looked at in order until one is near enough. */
    method SheepWereSensedInObservableArea(tr: Transcendentals) returns (seen: bool)
      requires ValidTranscendentals(tr)
      ensures seen == InSight(tr, position, Positions(flock.sheep))
    {
      ghost var ps := Positions(flock.sheep);
      seen := false;
      var i := 0;
      while i < |flock.sheep|
        invariant 0 <= i <= |flock.sheep|
        invariant forall j :: 0 <= j < i ==> SheepVisionDepth <= Distance(tr.sqrt, position, ps[j])
      {
        if Distance(tr.sqrt, position, flock.sheep[i].position) < SheepVisionDepth {
          seen := true;
          break;
        }
        i := i + 1;
      }
    }

    /**
     * InputsToAI: the network's inputs, built from fresh sheep and wall
     * sensors and what the flock reports, in the order Inputs lists them,
     * and the flock's progress as ProgressAfterInputs gives it. The inputs
     * are put together after the flock has been asked; neither sensor looks
     * at the flock's progress, so the order does not show.
     */
    method InputsToAI(tr: Transcendentals, cfg: DogConfig, now: real, ghost sheepPositions: seq<Point>, ghost velocities: seq<Point>)
        returns (inputs: seq<real>)
      requires Valid() && ValidTranscendentals(tr) && ValidConfig(cfg)
      requires sheepPositions == Positions(flock.sheep) && velocities == Velocities(flock.sheep)
      modifies flock`nextWayPointToHeadTo, flock`timeOfLastCheckpoint, flock`flockIsFailure, flock`failureReason
      ensures Valid()
      ensures ProgressOf(flock) == ProgressAfterInputs(tr, cfg, now, old(ProgressOf(flock)), position,
                                                       sheepPositions, flock.fences, flock.wayPoints)
      ensures inputs == Inputs(tr, cfg, ObservationOf(tr, angle, position, sheepPositions, velocities,
                                                      flock.fences, flock.wayPoints[flock.nextWayPointToHeadTo],
                                                      flock.penWidth, flock.penHeight))
    {
      var toWayPoint := CheckFlock(tr, cfg, now, sheepPositions);
      inputs := ReadInputs(tr, cfg, toWayPoint, sheepPositions, velocities);
    }

    /**
     * The reading half of InputsToAI: the sensors and what the flock reports,
     * in the order Inputs lists them, with the heading to the next way point
     * as the flock gave it.
     */
    method ReadInputs(tr: Transcendentals, cfg: DogConfig, toWayPoint: real, ghost sheepPositions: seq<Point>,
                      ghost velocities: seq<Point>) returns (inputs: seq<real>)
      requires Valid() && ValidTranscendentals(tr) && ValidConfig(cfg)
      requires sheepPositions == Positions(flock.sheep) && velocities == Velocities(flock.sheep)
      requires cfg.toggles.knowsAngleSheepNeedToHead ==>
                 var com := Centroid(sheepPositions);
                 var target := flock.wayPoints[flock.nextWayPointToHeadTo];
                 toWayPoint == Atan2(tr, target.y - com.y, target.x - com.x)
      ensures inputs == Inputs(tr, cfg, ObservationOf(tr, angle, position, sheepPositions, velocities,
                                                      flock.fences, flock.wayPoints[flock.nextWayPointToHeadTo],
                                                      flock.penWidth, flock.penHeight))
    {
      var positions := Positions(flock.sheep);
      var com, stragglers := flock.TrueCentreOfMass(tr);
      var heading := 0.0;
      if cfg.toggles.knowsAngleSheepAreMoving {
        heading := flock.GetAngleFlockIsMovingInRadians(tr);
      }
      var o := Observation(angle, position, com, positions, flock.fences, heading, toWayPoint,
                           flock.penWidth, flock.penHeight);
      InputsOfObservation(tr, cfg, o, velocities, flock.wayPoints[flock.nextWayPointToHeadTo]);
      inputs := Assemble(tr, cfg, o);
    }

    /**
     * The flock's side of InputsToAI: the sighting check, then, when the
     * network is told the heading to the next way point, AngleToNextWayPoint,
     * whose heading is returned (0 when it is not asked for).
     */
    method CheckFlock(tr: Transcendentals, cfg: DogConfig, now: real, ghost sheepPositions: seq<Point>) returns (toWayPoint: real)
      requires Valid() && ValidTranscendentals(tr) && sheepPositions == Positions(flock.sheep)
      modifies flock`nextWayPointToHeadTo, flock`timeOfLastCheckpoint, flock`flockIsFailure, flock`failureReason
      ensures Valid()
      ensures ProgressOf(flock) == ProgressAfterInputs(tr, cfg, now, old(ProgressOf(flock)), position,
                                                       sheepPositions, flock.fences, flock.wayPoints)
      ensures cfg.toggles.knowsAngleSheepNeedToHead ==>
                var com := Centroid(sheepPositions);
                var target := flock.wayPoints[flock.nextWayPointToHeadTo];
                toWayPoint == Atan2(tr, target.y - com.y, target.x - com.x)
    {
      MarkIfUnseen(tr, sheepPositions);
      toWayPoint := 0.0;
      if cfg.toggles.knowsAngleSheepNeedToHead {
        toWayPoint := flock.AngleToNextWayPoint(tr, position, now, sheepPositions);
      }
    }

    /** The sighting check of InputsToAI: a flock none of whose sheep the dog sees is failed as OUT OF SIGHT. */
    method MarkIfUnseen(tr: Transcendentals, ghost sheepPositions: seq<Point>)
      requires Valid() && ValidTranscendentals(tr) && sheepPositions == Positions(flock.sheep)
      modifies flock`flockIsFailure, flock`failureReason
      ensures Valid()
      ensures ProgressOf(flock) == Sighted(tr, old(ProgressOf(flock)), position, sheepPositions)
    {
      var seen := SheepWereSensedInObservableArea(tr);
      if !seen {
        flock.failureReason := OutOfSight;
        flock.flockIsFailure := true;
      }
    }

    /** SetDesiredAngleAndSpeedUsingAItoSteerTheDog: turn by the first output, speed from the second. */
    method SteerByHeading(output: seq<real>)
      requires 2 <= |output|
      modifies this`angle, this`speed
      ensures angle == Wrapped360(old(angle) + output[0])
      ensures speed == HeadingSpeed(output[1])
    {
      angle := Clamp360(angle + output[0]);
      speed := output[1] * DogSpeedMultiplier;
      if speed == 0.0 {
        speed := 0.5;
      }
      speed := Clamp(speed, -DogMaximumVelocity, DogMaximumVelocity);
    }

    /**
     * SetDesiredPositionByUsingAItoSteerTheDog: the outputs are the offset
     * from the flock's centre of mass, as shares of the playing field.
     */
    method SteerToPosition(tr: Transcendentals, output: seq<real>)
      requires Valid() && ValidTranscendentals(tr) && 2 <= |output|
      modifies this`desiredPosition
      ensures desiredPosition == Point(flock.CentreOfMass().x + output[0] * flock.penWidth as real,
                                       flock.CentreOfMass().y + output[1] * flock.penHeight as real)
    {
      var com, stragglers := flock.TrueCentreOfMass(tr);
      desiredPosition := Point(com.x + output[0] * flock.penWidth as real, com.y + output[1] * flock.penHeight as real);
    }

    /**
     * SetAngleAndSpeedBasedOnDesiredPosition: turn towards the desired
     * position by at most 30 degrees, the short way, and approach it at up
     * to the maximum velocity.
     */
    method SetAngleAndSpeedBasedOnDesiredPosition(tr: Transcendentals)
      requires ValidTranscendentals(tr)
      modifies this`angle, this`speed
      ensures angle == Wrapped360(old(angle) + Turn(BearingInDegrees(tr, position, desiredPosition), old(angle)))
      ensures speed == ApproachSpeed(Distance(tr.sqrt, position, desiredPosition))
    {
      var angleInDegrees := RadiansInDegrees(Atan2(tr, desiredPosition.y - position.y, desiredPosition.x - position.x));
      var angleInOptimalDirection := CsRem(angleInDegrees - angle + 540.0, 360.0) - 180.0;
      angle := Clamp360(angle + Clamp(angleInOptimalDirection, -MaxTurn, MaxTurn));
      speed := Clamp(Distance(tr.sqrt, position, desiredPosition), -DogMaximumVelocity, DogMaximumVelocity);
    }

    /** PreventDogJumpingFences: the correction from every fence segment, added to the position. */
    method PreventDogJumpingFences(tr: Transcendentals)
      requires ValidTranscendentals(tr)
      modifies this`position
      ensures position == Add(old(position), FencePushFrom(tr, old(position), Point(0.0, 0.0), Segments(flock.fences)))
    {
      var c := PushFromFences(tr, position, flock.fences);
      position := Point(position.x + c.x, position.y + c.y);
    }

    /**
     * The network's outputs steer the dog: with AIDeriveOptimalPosition they
     * give the desired position, which the dog turns towards and approaches;
     * otherwise they give the turn and the speed directly.
     */
    method Steer(tr: Transcendentals, cfg: DogConfig, output: seq<real>)
      requires Valid() && ValidTranscendentals(tr) && 2 <= |output|
      modifies this`desiredPosition, this`angle, this`speed
      ensures Valid()
      ensures MotionOf(this) == Steered(tr, cfg, output, Centroid(Positions(flock.sheep)), flock.penWidth, flock.penHeight,
                                        old(MotionOf(this)))
    {
      ghost var m := MotionOf(this);
      ghost var com := Centroid(Positions(flock.sheep));
      ghost var r := Steered(tr, cfg, output, com, flock.penWidth, flock.penHeight, m);
      if cfg.deriveOptimalPosition {
        SteerToPosition(tr, output);
        assert desiredPosition == r.desiredPosition;
        SetAngleAndSpeedBasedOnDesiredPosition(tr);
      } else {
        SteerByHeading(output);
      }
      assert MotionOf(this) == r;
      assert Centroid(Positions(flock.sheep)) == com;
    }

    /** The end of Move: a step along the facing, the fences' correction, and the field's margins. */
    method Advance(tr: Transcendentals)
      requires Valid() && ValidTranscendentals(tr)
      modifies this`position
      ensures position == Advanced(tr, old(position), angle, speed, flock.fences, flock.penWidth, flock.penHeight)
    {
      position := Stepped(tr, position, angle, speed);
      PreventDogJumpingFences(tr);
      position := Confine(position, flock.penWidth, flock.penHeight);
    }

    /**
     * Move: the network, fed the inputs, steers the dog by position or by
     * heading; the dog steps along its new facing, backs off from fences
     * and is kept inside the playing field.
     */
    method Move(tr: Transcendentals, cfg: DogConfig, brain: NN.Network, now: real)
      requires Valid() && ValidTranscendentals(tr) && ValidConfig(cfg)
      requires brain.Valid() && brain.id == id
      requires brain.layers[0] == RequiredInputWidth(cfg.toggles) && 2 <= brain.layers[|brain.layers| - 1]
      modifies this`desiredPosition, this`angle, this`speed, this`position, brain`neurons
      modifies flock`nextWayPointToHeadTo, flock`timeOfLastCheckpoint, flock`flockIsFailure, flock`failureReason
      ensures Valid() && brain.Valid()
      ensures ProgressOf(flock) == ProgressAfterInputs(tr, cfg, now, old(ProgressOf(flock)), old(position),
                                                       old(Positions(flock.sheep)), flock.fences, flock.wayPoints)
      ensures brain.neurons[0] ==
                Inputs(tr, cfg, ObservationOf(tr, old(angle), old(position), old(Positions(flock.sheep)), old(Velocities(flock.sheep)),
                                              flock.fences, flock.wayPoints[flock.nextWayPointToHeadTo],
                                              flock.penWidth, flock.penHeight))
      ensures var output := brain.neurons[|brain.layers| - 1];
              2 <= |output| &&
              output == NN.Forward(brain.layers, brain.activations, tr, brain.weights, brain.biases, brain.neurons[0], |brain.layers| - 1) &&
              MotionOf(this) == Moved(tr, cfg, output, Centroid(old(Positions(flock.sheep))), flock.fences,
                                      flock.penWidth, flock.penHeight, old(MotionOf(this)))
    {
      ghost var sheepPositions := Positions(flock.sheep);
      var output := Think(tr, cfg, brain, now, sheepPositions, Velocities(flock.sheep));
      Act(tr, cfg, output, Centroid(sheepPositions));
    }

    /**
     * The dog has made Move's move from the flock's progress `progress`,
     * its own position `position0`, facing `angle0` and motion `motion`,
     * seeing the sheep where they now stand: its network was fed the inputs
     * for that observation, its outputs steered the dog as Moved says, and
     * the flock's progress is what computing the inputs made of it.
     */
    ghost predicate MovedFrom(tr: Transcendentals, cfg: DogConfig, brain: NN.Network, now: real,
                              progress: Progress, position0: Point, angle0: real, motion: Motion)
      reads this, flock, flock.sheep, brain
    {
      ValidTranscendentals(tr) && ValidConfig(cfg) && Valid() && brain.Valid() &&
      0 <= progress.cursor < |flock.wayPoints| &&
      ProgressOf(flock) == ProgressAfterInputs(tr, cfg, now, progress, position0,
                                               Positions(flock.sheep), flock.fences, flock.wayPoints) &&
      brain.neurons[0] ==
        Inputs(tr, cfg, ObservationOf(tr, angle0, position0, Positions(flock.sheep), Velocities(flock.sheep),
                                      flock.fences, flock.wayPoints[flock.nextWayPointToHeadTo],
                                      flock.penWidth, flock.penHeight)) &&
      var output := brain.neurons[|brain.layers| - 1];
      2 <= |output| &&
      output == NN.Forward(brain.layers, brain.activations, tr, brain.weights, brain.biases, brain.neurons[0], |brain.layers| - 1) &&
      MotionOf(this) == Moved(tr, cfg, output, Centroid(Positions(flock.sheep)), flock.fences,
                              flock.penWidth, flock.penHeight, motion)
    }

    /**
     * Move as the flock sees it: the dog's move leaves every sheep as it
     * was, so the sheep it sees are the sheep as they are afterwards.
     */
    method MoveBesideSheep(tr: Transcendentals, cfg: DogConfig, brain: NN.Network, now: real)
      requires Valid() && ValidTranscendentals(tr) && ValidConfig(cfg)
      requires brain.Valid() && brain.id == id
      requires brain.layers[0] == RequiredInputWidth(cfg.toggles) && 2 <= brain.layers[|brain.layers| - 1]
      modifies this`desiredPosition, this`angle, this`speed, this`position, brain`neurons
      modifies flock`nextWayPointToHeadTo, flock`timeOfLastCheckpoint, flock`flockIsFailure, flock`failureReason
      ensures Valid() && brain.Valid() && unchanged(flock.sheep)
      ensures MovedFrom(tr, cfg, brain, now, old(ProgressOf(flock)), old(position), old(angle), old(MotionOf(this)))
    {
      Move(tr, cfg, brain, now);
    }

    /** The first half of Move: the inputs, and the network's outputs for them. */
    method Think(tr: Transcendentals, cfg: DogConfig, brain: NN.Network, now: real,
                 ghost sheepPositions: seq<Point>, ghost velocities: seq<Point>) returns (output: seq<real>)
      requires Valid() && ValidTranscendentals(tr) && ValidConfig(cfg)
      requires sheepPositions == Positions(flock.sheep) && velocities == Velocities(flock.sheep)
      requires brain.Valid() && brain.id == id
      requires brain.layers[0] == RequiredInputWidth(cfg.toggles) && 2 <= brain.layers[|brain.layers| - 1]
      modifies brain`neurons
      modifies flock`nextWayPointToHeadTo, flock`timeOfLastCheckpoint, flock`flockIsFailure, flock`failureReason
      ensures Valid() && brain.Valid()
      ensures ProgressOf(flock) == ProgressAfterInputs(tr, cfg, now, old(ProgressOf(flock)), position,
                                                       sheepPositions, flock.fences, flock.wayPoints)
      ensures brain.neurons[0] ==
                Inputs(tr, cfg, ObservationOf(tr, angle, position, sheepPositions, velocities,
                                              flock.fences, flock.wayPoints[flock.nextWayPointToHeadTo],
                                              flock.penWidth, flock.penHeight))
      ensures output == brain.neurons[|brain.layers| - 1] && 2 <= |output|
      ensures output == NN.Forward(brain.layers, brain.activations, tr, brain.weights, brain.biases, brain.neurons[0], |brain.layers| - 1)
      ensures Positions(flock.sheep) == sheepPositions
    {
      var inputToAI := InputsToAI(tr, cfg, now, sheepPositions, velocities);
      ghost var progress := ProgressOf(flock);
      output := brain.FeedForward(inputToAI, tr);
      assert inputToAI + old(brain.neurons[0])[|inputToAI|..] == inputToAI;
      assert ProgressOf(flock) == progress;
    }

    /** The second half of Move: the outputs steer the dog, which then takes its step. */
    method Act(tr: Transcendentals, cfg: DogConfig, output: seq<real>, ghost com: Point)
      requires Valid() && ValidTranscendentals(tr) && 2 <= |output|
      requires com == Centroid(Positions(flock.sheep))
      modifies this`desiredPosition, this`angle, this`speed, this`position
      ensures Valid()
      ensures MotionOf(this) == Moved(tr, cfg, output, com, flock.fences,
                                      flock.penWidth, flock.penHeight, old(MotionOf(this)))
    {
      Steer(tr, cfg, output);
      ghost var steered := MotionOf(this);
      Advance(tr);
      assert MotionOf(this).(position := steered.position) == steered;
    }
  }

  /**
   * Flock.Move with the dog's move at its end: a failed flock stands still;
   * otherwise every sheep takes its step, and then the dog, seeing the
   * sheep where they now are, makes its move.
   */
  method MoveFlock(tr: Transcendentals, cfg: DogConfig, dog: Dog, brain: NN.Network, increments: seq<Point>, now: real)
    requires dog.Valid() && ValidTranscendentals(tr) && ValidConfig(cfg) && |increments| == |dog.flock.sheep|
    requires brain.Valid() && brain.id == dog.id
    requires brain.layers[0] == RequiredInputWidth(cfg.toggles) && 2 <= brain.layers[|brain.layers| - 1]
    modifies dog, brain`neurons, dog.flock.sheep, dog.flock`numberOfSheepInPenZone
    modifies dog.flock`nextWayPointToHeadTo, dog.flock`timeOfLastCheckpoint, dog.flock`flockIsFailure, dog.flock`failureReason
    ensures dog.Valid() && brain.Valid()
    ensures old(dog.flock.flockIsFailure) ==>
              unchanged(dog, brain, dog.flock) &&
              forall i :: 0 <= i < |dog.flock.sheep| ==> dog.flock.sheep[i].State() == old(dog.flock.sheep[i].State())
    ensures !old(dog.flock.flockIsFailure) ==>
              (forall i :: 0 <= i < |dog.flock.sheep| ==>
                 dog.flock.sheep[i].State() ==
                   Step(tr, old(dog.flock.sheep[i].State()), increments[i], dog.flock.penWidth, dog.flock.penHeight)) &&
              dog.flock.numberOfSheepInPenZone == CountInZone(dog.flock.scoringZone, Positions(dog.flock.sheep))
    ensures !old(dog.flock.flockIsFailure) ==>
              dog.MovedFrom(tr, cfg, brain, now, old(ProgressOf(dog.flock)), old(dog.position), old(dog.angle), old(MotionOf(dog)))
  {
    var flock := dog.flock;
    if flock.flockIsFailure {
      return;
    }
    ghost var progress, motion := ProgressOf(flock), MotionOf(dog);
    flock.Move(tr, increments);
    assert ProgressOf(flock) == progress && MotionOf(dog) == motion;
    dog.MoveBesideSheep(tr, cfg, brain, now);
  }
}
