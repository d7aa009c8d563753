/**
 * A sheep (Sheepies/Sheep.cs): where it is, how fast it goes, which way it
 * faces and whether it is pausing. The boid rules that decide how its
 * velocity changes each frame are not modelled; the change they make is a
 * parameter of Move, and what Move does with it is.
 */
module Sheep {
  import opened Numerics
  import opened MathUtils
  import opened World

  /** SheepMaximumVelocityInAnyDirection. */
  const MaximumVelocity: real := 0.7

  /** SheepMinimumSpeedBeforeStop. */
  const MinimumSpeedBeforeStop: real := 0.1

  /** Half of the 0.0872665 radians (5 degrees) a sheep may turn in one frame. */
  const HalfTurnPerFrame: real := 0.0872665 / 2.0

  /** A random pause drawn by MakeSheepPause: RandomNumberGenerator.GetInt32(1, 30). */
  type PauseDraw = n: int | 1 <= n < 30 witness 1

  /** Everything Move reads and writes, as a value. */
  datatype SheepState = SheepState(position: Point, velocity: Point, angle: real, isStopped: bool, durationRemainingStopped: int)

  /** The length of a velocity. */
  function Speed(tr: Transcendentals, v: Point): (s: real)
    requires ValidTranscendentals(tr)
    ensures 0.0 <= s && Sq(s) == Sq(v.x) + Sq(v.y)
  {
    SquareNonNegative(v.x);
    SquareNonNegative(v.y);
    Sqrt(tr, Sq(v.x) + Sq(v.y))
  }

  /**
   * StopSheepRunningUnrealisticallyFast: below the maximum speed a velocity
   * is kept, unless it is below the minimum, when the sheep stops; at or
   * above the maximum it is scaled down to the maximum.
   */
  function CappedVelocity(tr: Transcendentals, v: Point): (r: Point)
    requires ValidTranscendentals(tr)
  {
    var s := Speed(tr, v);
    if s < MaximumVelocity then
      if AbsReal(s) < MinimumSpeedBeforeStop then Point(0.0, 0.0) else v
    else
      Point(v.x / s * MaximumVelocity, v.y / s * MaximumVelocity)
  }

  /** Scaling a coordinate by `m / s` scales its square by `Sq(m) / Sq(s)`. */
  lemma SqOfScaled(a: real, s: real, m: real)
    requires s != 0.0
    ensures Sq(a / s * m) * Sq(s) == Sq(a) * Sq(m)
  {
    var q := a / s;
    assert q * s == a;
    calc {
      Sq(q * m) * Sq(s);
      (q * m) * (q * m) * (s * s);
      (q * s) * (q * s) * (m * m);
      Sq(a) * Sq(m);
    }
  }

  lemma CancelPositive(x: real, y: real, k: real)
    requires 0.0 < k && x * k == y * k
    ensures x == y
  {
  }

  /** A velocity of length `s` scaled by the maximum over `s` keeps its direction and has the maximum length. */
  lemma {:induction false} ScaledToMaximum(v: Point, s: real)
    requires MaximumVelocity <= s && Sq(s) == Sq(v.x) + Sq(v.y)
    ensures var r := Point(v.x / s * MaximumVelocity, v.y / s * MaximumVelocity);
            r.x * s == v.x * MaximumVelocity && r.y * s == v.y * MaximumVelocity &&
            Sq(r.x) + Sq(r.y) == Sq(MaximumVelocity)
  {
    var r := Point(v.x / s * MaximumVelocity, v.y / s * MaximumVelocity);
    SqOfScaled(v.x, s, MaximumVelocity);
    SqOfScaled(v.y, s, MaximumVelocity);
    SquarePositive(s);
    var k := Sq(s);
    assert v.x / s * s == v.x;
    assert v.y / s * s == v.y;
    calc {
      (Sq(r.x) + Sq(r.y)) * k;
      Sq(r.x) * k + Sq(r.y) * k;
      Sq(v.x) * Sq(MaximumVelocity) + Sq(v.y) * Sq(MaximumVelocity);
      (Sq(v.x) + Sq(v.y)) * Sq(MaximumVelocity);
      Sq(MaximumVelocity) * k;
    }
    CancelPositive(Sq(r.x) + Sq(r.y), Sq(MaximumVelocity), k);
  }

  /**
   * After the cap a sheep is either stopped or moving no slower than the
   * minimum and no faster than the maximum speed. Exactly: a velocity
   * slower than the minimum becomes 0, one between the minimum and the
   * maximum is kept, and one at or above the maximum keeps its direction
   * and is shortened to the maximum speed.
   */
  lemma {:induction false} CappedVelocityBounds(tr: Transcendentals, v: Point)
    requires ValidTranscendentals(tr)
    ensures var r := CappedVelocity(tr, v);
            r == Point(0.0, 0.0) ||
            (Sq(MinimumSpeedBeforeStop) <= Sq(r.x) + Sq(r.y) && Sq(r.x) + Sq(r.y) <= Sq(MaximumVelocity))
    ensures Speed(tr, v) < MinimumSpeedBeforeStop ==> CappedVelocity(tr, v) == Point(0.0, 0.0)
    ensures MinimumSpeedBeforeStop <= Speed(tr, v) < MaximumVelocity ==> CappedVelocity(tr, v) == v
    ensures var r := CappedVelocity(tr, v);
            MaximumVelocity <= Speed(tr, v) ==>
              r.x * Speed(tr, v) == v.x * MaximumVelocity && r.y * Speed(tr, v) == v.y * MaximumVelocity &&
              Sq(r.x) + Sq(r.y) == Sq(MaximumVelocity)
  {
    var s := Speed(tr, v);
    var r := CappedVelocity(tr, v);
    if s < MaximumVelocity {
      if MinimumSpeedBeforeStop <= s {
        SquareMonotone(MinimumSpeedBeforeStop, s);
        SquareMonotone(s, MaximumVelocity);
      }
    } else {
      ScaledToMaximum(v, s);
      SquareMonotone(MinimumSpeedBeforeStop, MaximumVelocity);
    }
  }

  /**
   * One frame of Move. A pausing sheep counts its pause down and stays put
   * until the count reaches 0; then it stops pausing and, in the same frame,
   * takes the velocity change, turns towards its new heading by at most half
   * of 5 degrees, has its speed capped, moves, and is nudged back from the
   * pen's edges.
   */
  function Step(tr: Transcendentals, s: SheepState, increment: Point, penWidth: int, penHeight: int): (r: SheepState)
    requires ValidTranscendentals(tr)
  {
    var remaining := if s.isStopped then s.durationRemainingStopped - 1 else s.durationRemainingStopped;
    if s.isStopped && remaining > 0 then
      s.(durationRemainingStopped := remaining)
    else
      var v := Add(s.velocity, increment);
      var heading := Clamp(Atan2(tr, v.y, v.x), s.angle - HalfTurnPerFrame, s.angle + HalfTurnPerFrame);
      var capped := CappedVelocity(tr, v);
      var moved := Add(s.position, capped);
      SheepState(Add(moved, EnforceBoundary(moved, penWidth, penHeight)), capped, heading, false, remaining)
  }

  /** A sheep turns by at most half of 5 degrees per frame, and moves at most its speed plus the boundary nudge. */
  lemma StepLimits(tr: Transcendentals, s: SheepState, increment: Point, penWidth: int, penHeight: int)
    requires ValidTranscendentals(tr)
    ensures var r := Step(tr, s, increment, penWidth, penHeight);
            s.angle - HalfTurnPerFrame <= r.angle <= s.angle + HalfTurnPerFrame
    ensures var r := Step(tr, s, increment, penWidth, penHeight);
            r.isStopped ==> r.position == s.position && r.velocity == s.velocity && r.angle == s.angle
    ensures var r := Step(tr, s, increment, penWidth, penHeight);
            !r.isStopped ==> Sq(r.velocity.x) + Sq(r.velocity.y) <= Sq(MaximumVelocity)
  {
    var v := Add(s.velocity, increment);
    CappedVelocityBounds(tr, v);
  }

  /** `n` frames of Move, the k-th with the velocity change `increments(k)`. */
  function Frames(tr: Transcendentals, s: SheepState, increments: nat -> Point, penWidth: int, penHeight: int, n: nat): SheepState
    requires ValidTranscendentals(tr)
  {
    if n == 0 then s else Step(tr, Frames(tr, s, increments, penWidth, penHeight, n - 1), increments(n - 1), penWidth, penHeight)
  }

  /**
   * A sheep told to pause for `d` frames stays where it is, facing the same
   * way, for the next `d - 1` frames, and is still pausing with one frame to go.
   */
  lemma {:induction false} PauseHolds(tr: Transcendentals, s: SheepState, increments: nat -> Point, penWidth: int, penHeight: int, n: nat)
    requires ValidTranscendentals(tr)
    requires s.isStopped && n < s.durationRemainingStopped
    ensures var r := Frames(tr, s, increments, penWidth, penHeight, n);
            r == s.(durationRemainingStopped := s.durationRemainingStopped - n)
  {
    if n > 0 {
      PauseHolds(tr, s, increments, penWidth, penHeight, n - 1);
    }
  }

  /** The frame after the pause has run out, the sheep is no longer pausing. */
  lemma {:induction false} PauseEnds(tr: Transcendentals, s: SheepState, increments: nat -> Point, penWidth: int, penHeight: int)
    requires ValidTranscendentals(tr)
    requires s.isStopped && 1 <= s.durationRemainingStopped
    ensures !Frames(tr, s, increments, penWidth, penHeight, s.durationRemainingStopped).isStopped
    ensures Frames(tr, s, increments, penWidth, penHeight, s.durationRemainingStopped).durationRemainingStopped == 0
  {
    var d := s.durationRemainingStopped;
    PauseHolds(tr, s, increments, penWidth, penHeight, d - 1);
  }

  class Sheep {
    /** Where the sheep starts and returns to on ResetToStart. */
    const startPosition: Point
    var position: Point
    var velocity: Point
    /** The heading, in radians. */
    var angle: real
    var isStopped: bool
    var durationRemainingStopped: int

    function State(): SheepState
      reads this
    {
      SheepState(position, velocity, angle, isStopped, durationRemainingStopped)
    }

    /** A sheep placed at its start, standing still. */
    constructor(start: Point)
      ensures startPosition == start
      ensures State() == SheepState(start, Point(0.0, 0.0), 0.0, false, 0)
    {
      startPosition := start;
      position := start;
      velocity := Point(0.0, 0.0);
      angle := 0.0;
      isStopped := false;
      durationRemainingStopped := 0;
    }

    /** Puts the sheep back at its start, standing still, facing angle 0 and not pausing. */
    method ResetToStart()
      modifies this
      ensures State() == SheepState(startPosition, Point(0.0, 0.0), 0.0, false, old(durationRemainingStopped))
    {
      position := startPosition;
      velocity := Point(0.0, 0.0);
      isStopped := false;
      angle := 0.0;
      isStopped := false;
    }

    /**
     * MakeSheepPause: the sheep pauses for `frames` frames, or for the
     * drawn number of frames when `frames` is below 1; either way for at
     * least one.
     */
    method MakeSheepPause(frames: int, draw: PauseDraw)
      modifies this
      ensures State() == old(State()).(isStopped := true, durationRemainingStopped := if frames < 1 then draw else frames)
      ensures 1 <= durationRemainingStopped
    {
      var f := frames;
      if f < 1 {
        f := draw;
      }
      durationRemainingStopped := f;
      isStopped := true;
    }

    /** StopSheepRunningUnrealisticallyFast, on the sheep's own velocity. */
    method StopSheepRunningUnrealisticallyFast(tr: Transcendentals)
      requires ValidTranscendentals(tr)
      modifies this
      ensures State() == old(State()).(velocity := CappedVelocity(tr, old(velocity)))
    {
      var v := Sqrt(tr, Sq(velocity.x) + Sq(velocity.y));
      assert v == Speed(tr, velocity);
      if v < MaximumVelocity {
        if AbsReal(v) < MinimumSpeedBeforeStop {
          velocity := velocity.(x := 0.0);
        }
        if AbsReal(v) < MinimumSpeedBeforeStop {
          velocity := velocity.(y := 0.0);
        }
        return;
      }
      velocity := velocity.(x := velocity.x / v * MaximumVelocity);
      velocity := velocity.(y := velocity.y / v * MaximumVelocity);
    }

    /** Move: one frame, as Step describes it. */
    method Move(tr: Transcendentals, increment: Point, penWidth: int, penHeight: int)
      requires ValidTranscendentals(tr)
      modifies this
      ensures State() == Step(tr, old(State()), increment, penWidth, penHeight)
    {
      if isStopped {
        durationRemainingStopped := durationRemainingStopped - 1;
        if durationRemainingStopped > 0 {
          return;
        }
        isStopped := false;
      }
      velocity := Add(velocity, increment);
      var heading := Atan2(tr, velocity.y, velocity.x);
      angle := Clamp(heading, angle - HalfTurnPerFrame, angle + HalfTurnPerFrame);
      StopSheepRunningUnrealisticallyFast(tr);
      position := Add(position, velocity);
      var push := EnforceBoundary(position, penWidth, penHeight);
      position := Add(position, push);
    }
  }
}
