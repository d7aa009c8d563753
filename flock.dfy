/**
 * A flock of sheep and the way points they must be herded through
 * (Sheepies/Flock.cs): the centres of mass, the cursor that advances to the
 * furthest way point the flock can see without a fence in the way, the
 * failure rules, a frame of movement and the fitness of the flock. The dog
 * that herds it is in module Dog; the flock is told where the dog is.
 */
module Flock {
  import opened Numerics
  import opened MathUtils
  import opened World
  import opened Sheep

  /** DogMaximumTimeWastingAllowedInSeconds. */
  const MaximumTimeWasting: real := 50.0

  /** c_exitQuietModeWhenScoreReached. */
  const ExitQuietModeScore: real := 500.0

  /** The distance from the centre of mass beyond which a sheep is a straggler. */
  const StragglerDistance: real := 150.0

  /** The failureReason strings: "RUNNING", "OUT OF SIGHT", "TIME WASTING" and "TIME UP". */
  datatype FailureReason = Running | OutOfSight | TimeWasting | TimeUp

  /*
   * Sums and centres of positions.
   */

  function Positions(flock: seq<Sheep>): (ps: seq<Point>)
    reads flock
    ensures |ps| == |flock| && forall i :: 0 <= i < |flock| ==> ps[i] == flock[i].position
  {
    if |flock| == 0 then [] else Positions(flock[..|flock| - 1]) + [flock[|flock| - 1].position]
  }

  /** The velocities of the sheep, in order. */
  function Velocities(flock: seq<Sheep>): (vs: seq<Point>)
    reads flock
    ensures |vs| == |flock| && forall i :: 0 <= i < |flock| ==> vs[i] == flock[i].velocity
  {
    if |flock| == 0 then [] else Velocities(flock[..|flock| - 1]) + [flock[|flock| - 1].velocity]
  }

  function SumPoints(ps: seq<Point>): Point
  {
    if |ps| == 0 then Point(0.0, 0.0) else Add(SumPoints(ps[..|ps| - 1]), ps[|ps| - 1])
  }

  /** The centre of mass: the mean of the positions. */
  function Centroid(ps: seq<Point>): Point
    requires 0 < |ps|
  {
    var s := SumPoints(ps);
    Point(s.x / |ps| as real, s.y / |ps| as real)
  }

  /** The sum of the positions of every sheep of `flock` other than `me`. */
  function SumOthers(flock: seq<Sheep>, me: Sheep): Point
    reads flock
    reads me
  {
    if |flock| == 0 then Point(0.0, 0.0)
    else
      var rest := SumOthers(flock[..|flock| - 1], me);
      var last := flock[|flock| - 1];
      if last == me then rest else Add(rest, last.position)
  }

  /** No sheep appears twice in the list. */
  predicate AllDifferent(flock: seq<Sheep>)
  {
    forall i, j :: 0 <= i < j < |flock| ==> flock[i] != flock[j]
  }

  /** When `me` is in the flock once, the others' sum and its own position make up the whole sum. */
  lemma {:induction false} SumOthersAddsUp(flock: seq<Sheep>, me: Sheep)
    requires AllDifferent(flock) && me in flock
    ensures Add(SumOthers(flock, me), me.position) == SumPoints(Positions(flock))
  {
    var n := |flock|;
    var init := flock[..n - 1];
    assert Positions(flock)[..n - 1] == Positions(init);
    if flock[n - 1] == me {
      assert me !in init;
      SumOthersMissing(init, me);
    } else {
      assert me in init;
      SumOthersAddsUp(init, me);
    }
  }

  /** Without `me` in the flock, the others are everyone. */
  lemma {:induction false} SumOthersMissing(flock: seq<Sheep>, me: Sheep)
    requires me !in flock
    ensures SumOthers(flock, me) == SumPoints(Positions(flock))
  {
    var n := |flock|;
    if n > 0 {
      assert Positions(flock)[..n - 1] == Positions(flock[..n - 1]);
      SumOthersMissing(flock[..n - 1], me);
    }
  }

  /** Each coordinate of the sum lies between `n` times the smallest and `n` times the largest. */
  lemma {:induction false} SumPointsBounds(ps: seq<Point>, lo: Point, hi: Point)
    requires forall i :: 0 <= i < |ps| ==> lo.x <= ps[i].x <= hi.x && lo.y <= ps[i].y <= hi.y
    ensures Times(|ps| as real, lo.x) <= SumPoints(ps).x <= Times(|ps| as real, hi.x)
    ensures Times(|ps| as real, lo.y) <= SumPoints(ps).y <= Times(|ps| as real, hi.y)
  {
    var n := |ps|;
    if n > 0 {
      var m := (n - 1) as real;
      SumPointsBounds(ps[..n - 1], lo, hi);
      TimesSucc(m, lo.x);
      TimesSucc(m, hi.x);
      TimesSucc(m, lo.y);
      TimesSucc(m, hi.y);
      assert m + 1.0 == n as real;
    } else {
      assert Times(0.0, lo.x) == 0.0 && Times(0.0, hi.x) == 0.0;
      assert Times(0.0, lo.y) == 0.0 && Times(0.0, hi.y) == 0.0;
    }
  }

  /** The centre of mass of sheep inside a box is inside that box. */
  lemma CentroidWithinBounds(ps: seq<Point>, lo: Point, hi: Point)
    requires 0 < |ps|
    requires forall i :: 0 <= i < |ps| ==> lo.x <= ps[i].x <= hi.x && lo.y <= ps[i].y <= hi.y
    ensures lo.x <= Centroid(ps).x <= hi.x && lo.y <= Centroid(ps).y <= hi.y
  {
    SumPointsBounds(ps, lo, hi);
    var n := |ps| as real;
    var s := SumPoints(ps);
    QuotientWithinTimes(s.x, n, lo.x, hi.x);
    QuotientWithinTimes(s.y, n, lo.y, hi.y);
  }

  /*
   * Fences between the flock and a way point.
   */

  /** Some fence segment crosses the straight route from `a` to `b`. */
  ghost predicate Blocked(fences: seq<Polyline>, a: Point, b: Point)
  {
    exists f, i :: IsSegment(fences, f, i) && SegmentCrosses(fences, f, i, a, b)
  }

  /** Way point `j` can be reached from `com` without crossing a fence. */
  ghost predicate ClearAt(fences: seq<Polyline>, wayPoints: seq<Point>, com: Point, j: int)
    requires 0 <= j < |wayPoints|
  {
    !Blocked(fences, com, wayPoints[j])
  }

  /** The distance from way point `j` to `com`. */
  function DistAt(tr: Transcendentals, wayPoints: seq<Point>, com: Point, j: int): (d: real)
    requires ValidTranscendentals(tr) && 0 <= j < |wayPoints|
    ensures 0.0 <= d
  {
    Distance(tr.sqrt, wayPoints[j], com)
  }

  /**
   * The way point GetClosestWayPointForwards settles on among indices
   * [lo, hi): scanning upwards, a clear way point replaces the best so far
   * when it is strictly further away; -1 when none is clear.
   */
  ghost function Furthest(tr: Transcendentals, fences: seq<Polyline>, wayPoints: seq<Point>, com: Point, lo: int, hi: int): (k: int)
    requires ValidTranscendentals(tr) && 0 <= lo <= hi <= |wayPoints|
    ensures k == -1 || lo <= k < hi
    decreases hi - lo
  {
    if hi == lo then -1
    else
      var b := Furthest(tr, fences, wayPoints, com, lo, hi - 1);
      var bestDist := if b == -1 then -1.0 else DistAt(tr, wayPoints, com, b);
      if ClearAt(fences, wayPoints, com, hi - 1) && DistAt(tr, wayPoints, com, hi - 1) > bestDist then hi - 1 else b
  }

  /**
   * Furthest is -1 exactly when no way point of the range is clear, and
   * otherwise the first of the clear way points furthest from `com`.
   */
  lemma {:induction false} FurthestIsFurthest(tr: Transcendentals, fences: seq<Polyline>, wayPoints: seq<Point>, com: Point, lo: int, hi: int)
    requires ValidTranscendentals(tr) && 0 <= lo <= hi <= |wayPoints|
    ensures var k := Furthest(tr, fences, wayPoints, com, lo, hi);
            k == -1 <==> forall j :: lo <= j < hi ==> !ClearAt(fences, wayPoints, com, j)
    ensures var k := Furthest(tr, fences, wayPoints, com, lo, hi);
            k != -1 ==>
              ClearAt(fences, wayPoints, com, k) &&
              (forall j :: lo <= j < hi && ClearAt(fences, wayPoints, com, j) ==> DistAt(tr, wayPoints, com, j) <= DistAt(tr, wayPoints, com, k)) &&
              (forall j :: lo <= j < k && ClearAt(fences, wayPoints, com, j) ==> DistAt(tr, wayPoints, com, j) < DistAt(tr, wayPoints, com, k))
    decreases hi - lo
  {
    if hi > lo {
      FurthestIsFurthest(tr, fences, wayPoints, com, lo, hi - 1);
    }
  }

  /** GetClosestWayPointForwards as a function of the cursor it starts from. */
  ghost function ClosestForwards(tr: Transcendentals, fences: seq<Polyline>, wayPoints: seq<Point>, com: Point, current: int): int
    requires ValidTranscendentals(tr)
  {
    var lo := if current < 0 then 0 else current;
    var k := if |wayPoints| <= lo then -1 else Furthest(tr, fences, wayPoints, com, lo, |wayPoints|);
    var c := if k > 0 then k else current;
    if c >= |wayPoints| then c - 1 else c
  }

  /** RouteHasFencesInBetweenFlockAndWayPoint: every segment of every fence is tried in turn. */
  method RouteHasFences(fences: seq<Polyline>, com: Point, wayPoint: Point) returns (blocked: bool)
    ensures blocked <==> Blocked(fences, com, wayPoint)
  {
    var f := 0;
    while f < |fences|
      invariant 0 <= f <= |fences|
      invariant forall g, i :: 0 <= g < f && IsSegment(fences, g, i) ==> !SegmentCrosses(fences, g, i, com, wayPoint)
    {
      var points := fences[f];
      var i := 0;
      while i < |points| - 1
        invariant 0 <= i <= if |points| == 0 then 0 else |points| - 1
        invariant forall g, j :: 0 <= g < f && IsSegment(fences, g, j) ==> !SegmentCrosses(fences, g, j, com, wayPoint)
        invariant forall j :: 0 <= j < i ==> !SegmentCrosses(fences, f, j, com, wayPoint)
      {
        if GetLineIntersection(points[i], points[i + 1], com, wayPoint).hit {
          assert SegmentCrosses(fences, f, i, com, wayPoint);
          return true;
        }
        i := i + 1;
      }
      f := f + 1;
    }
    return false;
  }

  /**
   * From a cursor inside the route, GetClosestWayPointForwards never moves
   * backwards and stays inside the route: it moves on to the furthest way
   * point, at or after the cursor, that the flock's centre of mass can reach
   * in a straight line without crossing a fence, and stays when there is none.
   */
  lemma ClosestForwardsIsFurthest(tr: Transcendentals, fences: seq<Polyline>, wayPoints: seq<Point>, com: Point, current: int)
    requires ValidTranscendentals(tr) && 0 <= current < |wayPoints|
    ensures var r := ClosestForwards(tr, fences, wayPoints, com, current);
            current <= r < |wayPoints| &&
            if forall j :: current <= j < |wayPoints| ==> !ClearAt(fences, wayPoints, com, j) then r == current
            else
              ClearAt(fences, wayPoints, com, r) &&
              forall j :: current <= j < |wayPoints| && ClearAt(fences, wayPoints, com, j) ==>
                DistAt(tr, wayPoints, com, j) <= DistAt(tr, wayPoints, com, r)
  {
    FurthestIsFurthest(tr, fences, wayPoints, com, current, |wayPoints|);
  }

  /**
   * GetClosestWayPointForwards: the way points from the cursor on are
   * scanned upwards, and the cursor moves to the one Furthest picks unless
   * that is way point 0; a cursor past the route is pulled back by one.
   */
  method GetClosestWayPointForwards(tr: Transcendentals, fences: seq<Polyline>, wayPoints: seq<Point>, com: Point, current: int)
      returns (r: int)
    requires ValidTranscendentals(tr)
    ensures r == ClosestForwards(tr, fences, wayPoints, com, current)
  {
    var closest := -1;
    var closestDistance := -1.0;
    var lo := if current < 0 then 0 else current;
    var i := lo;
    while i < |wayPoints|
      invariant lo <= |wayPoints| ==> lo <= i <= |wayPoints|
      invariant |wayPoints| < lo ==> i == lo
      invariant lo <= |wayPoints| ==> closest == Furthest(tr, fences, wayPoints, com, lo, i)
      invariant |wayPoints| < lo ==> closest == -1
      invariant closestDistance == if closest == -1 then -1.0 else DistAt(tr, wayPoints, com, closest)
    {
      var d := Distance(tr.sqrt, wayPoints[i], com);
      var blocked := RouteHasFences(fences, com, wayPoints[i]);
      if !blocked && d > closestDistance {
        closest := i;
        closestDistance := d;
      }
      i := i + 1;
    }
    r := current;
    if closest > 0 {
      r := closest;
    }
    if r >= |wayPoints| {
      r := r - 1;
    }
  }

  /** The points a flock earns for one sheep: 100 inside the scoring zone, the cursor elsewhere. */
  function SheepScore(zone: Rect, cursor: int, p: Point): real
  {
    if Contains(zone, p) then 100.0 else cursor as real
  }

  function SumScores(zone: Rect, cursor: int, ps: seq<Point>): real
  {
    if |ps| == 0 then 0.0 else SumScores(zone, cursor, ps[..|ps| - 1]) + SheepScore(zone, cursor, ps[|ps| - 1])
  }

  /** How many of the positions are in the scoring zone. */
  function CountInZone(zone: Rect, ps: seq<Point>): (n: nat)
    ensures n <= |ps|
  {
    if |ps| == 0 then 0 else CountInZone(zone, ps[..|ps| - 1]) + (if Contains(zone, ps[|ps| - 1]) then 1 else 0)
  }

  /** Each sheep's score lies between the smaller and the larger of 100 and the cursor. */
  lemma {:induction false} SumScoresBounds(zone: Rect, cursor: int, ps: seq<Point>)
    ensures var lo := if cursor < 100 then cursor as real else 100.0;
            var hi := if cursor < 100 then 100.0 else cursor as real;
            |ps| as real * lo <= SumScores(zone, cursor, ps) <= |ps| as real * hi
  {
    if |ps| > 0 {
      var lo := if cursor < 100 then cursor as real else 100.0;
      var hi := if cursor < 100 then 100.0 else cursor as real;
      var m := (|ps| - 1) as real;
      SumScoresBounds(zone, cursor, ps[..|ps| - 1]);
      MulSucc(m, lo);
      MulSucc(m, hi);
    }
  }

  /** The sum is 100 per sheep in the zone and the cursor per sheep outside it. */
  lemma {:induction false} SumScoresCounts(zone: Rect, cursor: int, ps: seq<Point>)
    ensures SumScores(zone, cursor, ps) ==
            100.0 * CountInZone(zone, ps) as real + cursor as real * (|ps| - CountInZone(zone, ps)) as real
  {
    if |ps| > 0 {
      SumScoresCounts(zone, cursor, ps[..|ps| - 1]);
    }
  }

  /**
   * Move's loop after `i` sheep: those have taken their step from the states
   * in `olds` and stand at `moved`; the rest still hold their states in `olds`.
   */
  ghost predicate MovedUpTo(tr: Transcendentals, flock: seq<Sheep>, olds: seq<SheepState>, increments: seq<Point>,
                            penWidth: int, penHeight: int, i: nat, moved: seq<Point>)
    requires ValidTranscendentals(tr)
    reads flock
  {
    |olds| == |flock| == |increments| && i <= |flock| && |moved| == i &&
    (forall j :: 0 <= j < i ==> flock[j].State() == Step(tr, olds[j], increments[j], penWidth, penHeight)) &&
    (forall j :: 0 <= j < i ==> flock[j].position == moved[j]) &&
    (forall j :: i <= j < |flock| ==> flock[j].State() == olds[j])
  }

  /** One pass of Flock.Move's loop: sheep `i` takes its step, and is counted when it ends up in the scoring zone. */
  method MoveOne(tr: Transcendentals, flock: seq<Sheep>, ghost olds: seq<SheepState>, increments: seq<Point>,
                 penWidth: int, penHeight: int, zone: Rect, i: nat, count: int, ghost moved: seq<Point>) returns (count': int)
    requires ValidTranscendentals(tr) && AllDifferent(flock) && i < |flock|
    requires MovedUpTo(tr, flock, olds, increments, penWidth, penHeight, i, moved) && count == CountInZone(zone, moved)
    modifies flock[i]
    ensures MovedUpTo(tr, flock, olds, increments, penWidth, penHeight, i + 1, moved + [flock[i].position])
    ensures count' == CountInZone(zone, moved + [flock[i].position])
  {
    var s := flock[i];
    s.Move(tr, increments[i], penWidth, penHeight);
    assert (moved + [s.position])[..i] == moved;
    count' := count;
    if Contains(zone, s.position) {
      count' := count + 1;
    }
  }

  /** The loop of Flock.Move: every sheep takes its step, and those that end up in the scoring zone are counted. */
  method MoveAll(tr: Transcendentals, flock: seq<Sheep>, increments: seq<Point>, penWidth: int, penHeight: int, zone: Rect)
      returns (count: int)
    requires ValidTranscendentals(tr) && AllDifferent(flock) && |increments| == |flock|
    modifies flock
    ensures forall i :: 0 <= i < |flock| ==> flock[i].State() == Step(tr, old(flock[i].State()), increments[i], penWidth, penHeight)
    ensures count == CountInZone(zone, Positions(flock))
  {
    ghost var olds := seq(|flock|, j requires 0 <= j < |flock| reads flock => flock[j].State());
    count := 0;
    ghost var moved: seq<Point> := [];
    var i := 0;
    while i < |flock|
      invariant MovedUpTo(tr, flock, olds, increments, penWidth, penHeight, i, moved)
      invariant count == CountInZone(zone, moved)
    {
      count := MoveOne(tr, flock, olds, increments, penWidth, penHeight, zone, i, count, moved);
      moved := moved + [flock[i].position];
      i := i + 1;
    }
    assert Positions(flock) == moved;
  }

  /** The part of a flock's state that the dog's inputs may change: its way point cursor and its failure. */
  datatype Progress = Progress(cursor: int, checkpoint: real, failed: bool, reason: FailureReason)

  function ProgressOf(flock: Flock): Progress
    reads flock
  {
    Progress(flock.nextWayPointToHeadTo, flock.timeOfLastCheckpoint, flock.flockIsFailure, flock.failureReason)
  }

  /**
   * The first stage of AngleToNextWayPoint: the flock fails as OUT OF SIGHT
   * when the dog is more than 1.4 depths of vision from the centre of mass
   * `com`; otherwise the cursor moves forwards, and the checkpoint clock
   * restarts when it moves.
   */
  ghost function CursorAdvanced(tr: Transcendentals, now: real, p: Progress, position: Point, com: Point,
                                fences: seq<Polyline>, wayPoints: seq<Point>): (q: Progress)
    requires ValidTranscendentals(tr) && 0 <= p.cursor < |wayPoints|
    ensures p.cursor <= q.cursor < |wayPoints|
    ensures q.failed <==> p.failed || Distance(tr.sqrt, position, com) > SheepVisionDepth * 1.4
    ensures q.failed && !p.failed ==> q.reason == OutOfSight
    ensures !q.failed ==> q.reason == p.reason
    ensures Distance(tr.sqrt, position, com) > SheepVisionDepth * 1.4 ==> q.cursor == p.cursor
    ensures q.cursor != p.cursor ==> q.checkpoint == now && q.cursor == ClosestForwards(tr, fences, wayPoints, com, p.cursor)
  {
    var next := ClosestForwards(tr, fences, wayPoints, com, p.cursor);
    if Distance(tr.sqrt, position, com) > SheepVisionDepth * 1.4 then p.(failed := true, reason := OutOfSight)
    else if next == p.cursor then p
    else p.(cursor := next, checkpoint := now)
  }

  /**
   * The second stage: a flock whose checkpoint clock has run for more than
   * 50 seconds fails, as TIME UP on the last of `count` way points and
   * TIME WASTING before it.
   */
  function TimeChecked(now: real, p: Progress, count: int): (q: Progress)
    ensures q.cursor == p.cursor && q.checkpoint == p.checkpoint
    ensures q.failed <==> p.failed || now - p.checkpoint > MaximumTimeWasting
    ensures now - p.checkpoint > MaximumTimeWasting ==> q.reason == (if p.cursor < count - 1 then TimeWasting else TimeUp)
    ensures now - p.checkpoint <= MaximumTimeWasting ==> q == p
  {
    if now - p.checkpoint > MaximumTimeWasting then
      p.(failed := true, reason := if p.cursor < count - 1 then TimeWasting else TimeUp)
    else p
  }

  /** What AngleToNextWayPoint does to a flock's progress: both stages, from the centre of mass of `sheepPositions`. */
  ghost function WayPointChecked(tr: Transcendentals, now: real, p: Progress, position: Point,
                                 sheepPositions: seq<Point>, fences: seq<Polyline>, wayPoints: seq<Point>): (q: Progress)
    requires ValidTranscendentals(tr) && 0 < |sheepPositions| && 0 <= p.cursor < |wayPoints|
    ensures p.cursor <= q.cursor < |wayPoints|
    ensures p.failed ==> q.failed
    ensures q.failed && !p.failed ==> q.reason != Running
    ensures !q.failed ==> q.reason == p.reason
    ensures q.cursor != p.cursor ==> q.checkpoint == now
  {
    TimeChecked(now, CursorAdvanced(tr, now, p, position, Centroid(sheepPositions), fences, wayPoints), |wayPoints|)
  }

  class Flock {
    /** The id of the network (and dog) that herds this flock. */
    const id: int
    const sheep: seq<Sheep>
    const penWidth: int
    const penHeight: int
    /** s_wayPointsSheepNeedsToGoThru, s_lines and s_sheepPenScoringZone of the world the flock is in. */
    const wayPoints: seq<Point>
    const fences: seq<Polyline>
    const scoringZone: Rect
    var numberOfSheepInPenZone: int
    /** NextWayPointToHeadTo: the index of the way point the sheep are to head for. */
    var nextWayPointToHeadTo: int
    var flockIsFailure: bool
    var failureReason: FailureReason
    /** When the cursor last moved, in seconds. */
    var timeOfLastCheckpoint: real

    /** The flock is not empty, no sheep is in it twice, and the cursor points into the route. */
    ghost predicate Valid()
      reads this
    {
      0 < |sheep| && AllDifferent(sheep) && 0 <= nextWayPointToHeadTo < |wayPoints|
    }

    /** A flock of `flockSize` sheep at the first `flockSize` given positions, heading for way point 0. */
    constructor(id: int, sheepPositions: seq<Point>, flockSize: nat, width: int, height: int,
                wayPoints: seq<Point>, fences: seq<Polyline>, scoringZone: Rect, now: real)
      requires 0 < flockSize <= |sheepPositions| && 0 < |wayPoints|
      ensures Valid() && fresh(set s | s in sheep)
      ensures this.id == id && |sheep| == flockSize && penWidth == width && penHeight == height
      ensures this.wayPoints == wayPoints && this.fences == fences && this.scoringZone == scoringZone
      ensures forall i :: 0 <= i < flockSize ==> sheep[i].State() == SheepState(sheepPositions[i], Point(0.0, 0.0), 0.0, false, 0)
      ensures numberOfSheepInPenZone == 0 && nextWayPointToHeadTo == 0 && !flockIsFailure && failureReason == Running
      ensures timeOfLastCheckpoint == now
    {
      var made := MakeSheep(sheepPositions, flockSize);
      this.id := id;
      sheep := made;
      penWidth := width;
      penHeight := height;
      this.wayPoints := wayPoints;
      this.fences := fences;
      this.scoringZone := scoringZone;
      numberOfSheepInPenZone := 0;
      nextWayPointToHeadTo := 0;
      flockIsFailure := false;
      failureReason := Running;
      timeOfLastCheckpoint := now;
    }

    /** The sheep of a new flock, one per position, each a new object. */
    static method MakeSheep(positions: seq<Point>, n: nat) returns (made: seq<Sheep>)
      requires n <= |positions|
      ensures |made| == n && AllDifferent(made) && fresh(set s | s in made)
      ensures forall i :: 0 <= i < n ==> made[i].State() == SheepState(positions[i], Point(0.0, 0.0), 0.0, false, 0)
    {
      made := [];
      var i := 0;
      while i < n
        invariant 0 <= i <= n && |made| == i && AllDifferent(made) && fresh(set s | s in made)
        invariant forall j :: 0 <= j < i ==> made[j].State() == SheepState(positions[j], Point(0.0, 0.0), 0.0, false, 0)
      {
        var s := new Sheep(positions[i]);
        made := made + [s];
        i := i + 1;
      }
    }

    /** The NextWayPointToHeadTo setter: a new value restarts the checkpoint clock, the same value does nothing. */
    method SetNextWayPointToHeadTo(value: int, now: real)
      modifies this`nextWayPointToHeadTo, this`timeOfLastCheckpoint
      ensures nextWayPointToHeadTo == value
      ensures timeOfLastCheckpoint == if old(nextWayPointToHeadTo) == value then old(timeOfLastCheckpoint) else now
    {
      if nextWayPointToHeadTo == value {
        return;
      }
      nextWayPointToHeadTo := value;
      timeOfLastCheckpoint := now;
    }

    /**
     * CenterOfMassExcludingThisSheep: the mean position of the other sheep,
     * or the sheep's own position in a flock of fewer than two. A sheep of
     * the flock and the true centre of mass are related by
     * (n - 1) * c + own position == n * centre.
     */
    method CenterOfMassExcludingThisSheep(me: Sheep) returns (c: Point)
      requires Valid()
      ensures |sheep| < 2 ==> c == me.position
      ensures 2 <= |sheep| ==>
                var s := SumOthers(sheep, me);
                var m := (|sheep| - 1) as real;
                c == Point(s.x / m, s.y / m)
      ensures 2 <= |sheep| && me in sheep ==>
                var n := |sheep| as real;
                var com := Centroid(Positions(sheep));
                (n - 1.0) * c.x + me.position.x == n * com.x && (n - 1.0) * c.y + me.position.y == n * com.y
    {
      if |sheep| < 2 {
        return me.position;
      }
      var x := 0.0;
      var y := 0.0;
      var i := 0;
      while i < |sheep|
        invariant 0 <= i <= |sheep|
        invariant Point(x, y) == SumOthers(sheep[..i], me)
      {
        assert sheep[..i + 1][..i] == sheep[..i];
        if sheep[i] != me {
          x := x + sheep[i].position.x;
          y := y + sheep[i].position.y;
        }
        i := i + 1;
      }
      assert sheep[..i] == sheep;
      var m := (|sheep| - 1) as real;
      c := Point(x / m, y / m);
      if me in sheep {
        SumOthersAddsUp(sheep, me);
      }
    }

    /** GetAngleFlockIsMovingInRadians: the heading of the sum of the sheep's velocities. */
    method GetAngleFlockIsMovingInRadians(tr: Transcendentals) returns (angle: real)
      ensures var v := SumPoints(Velocities(sheep));
              angle == Atan2(tr, v.y, v.x)
    {
      var x := 0.0;
      var y := 0.0;
      var i := 0;
      while i < |sheep|
        invariant 0 <= i <= |sheep|
        invariant Point(x, y) == SumPoints(Velocities(sheep)[..i])
      {
        assert Velocities(sheep)[..i + 1][..i] == Velocities(sheep)[..i];
        x := x + sheep[i].velocity.x;
        y := y + sheep[i].velocity.y;
        i := i + 1;
      }
      assert Velocities(sheep)[..i] == Velocities(sheep);
      angle := Atan2(tr, y, x);
    }

    /**
     * TrueCentreOfMass: the mean position of all the sheep, and whether any
     * sheep is more than 150 from it.
     */
    method TrueCentreOfMass(tr: Transcendentals) returns (com: Point, stragglers: bool)
      requires Valid() && ValidTranscendentals(tr)
      ensures com == Centroid(Positions(sheep))
      ensures stragglers <==> exists i :: 0 <= i < |sheep| && Distance(tr.sqrt, com, sheep[i].position) > StragglerDistance
    {
      var x := 0.0;
      var y := 0.0;
      var i := 0;
      while i < |sheep|
        invariant 0 <= i <= |sheep|
        invariant Point(x, y) == SumPoints(Positions(sheep)[..i])
      {
        assert Positions(sheep)[..i + 1][..i] == Positions(sheep)[..i];
        x := x + sheep[i].position.x;
        y := y + sheep[i].position.y;
        i := i + 1;
      }
      assert Positions(sheep)[..i] == Positions(sheep);
      com := Point(x / |sheep| as real, y / |sheep| as real);
      stragglers := false;
      i := 0;
      while i < |sheep|
        invariant 0 <= i <= |sheep|
        invariant stragglers <==> exists j :: 0 <= j < i && Distance(tr.sqrt, com, sheep[j].position) > StragglerDistance
      {
        if Distance(tr.sqrt, com, sheep[i].position) > StragglerDistance {
          stragglers := true;
        }
        i := i + 1;
      }
    }

    /** AdjustClosestWayPointForwards: the cursor, through its setter, moves to GetClosestWayPointForwards' choice. */
    method AdjustClosestWayPointForwards(tr: Transcendentals, com: Point, now: real)
      requires Valid() && ValidTranscendentals(tr)
      modifies this`nextWayPointToHeadTo, this`timeOfLastCheckpoint
      ensures Valid() && old(nextWayPointToHeadTo) <= nextWayPointToHeadTo
      ensures nextWayPointToHeadTo == ClosestForwards(tr, fences, wayPoints, com, old(nextWayPointToHeadTo))
      ensures timeOfLastCheckpoint == if nextWayPointToHeadTo == old(nextWayPointToHeadTo) then old(timeOfLastCheckpoint) else now
    {
      var next := GetClosestWayPointForwards(tr, fences, wayPoints, com, nextWayPointToHeadTo);
      SetNextWayPointToHeadTo(next, now);
    }

    /** The centre of mass of all the sheep. */
    function CentreOfMass(): Point
      requires 0 < |sheep|
      reads sheep
    {
      Centroid(Positions(sheep))
    }

    /**
     * AngleToNextWayPoint: the heading, from the centre of mass, of the way
     * point the sheep must reach next. A centre of mass more than 1.4 times
     * the dog's depth of vision away from the dog fails the flock as OUT OF
     * SIGHT; otherwise the cursor moves forwards as GetClosestWayPointForwards
     * decides. If the cursor has then not moved for more than 50 seconds the
     * flock fails, as TIME UP on the last way point and TIME WASTING before it.
     */
    method AngleToNextWayPoint(tr: Transcendentals, dogPosition: Point, now: real, ghost sheepPositions: seq<Point>)
        returns (angle: real)
      requires Valid() && ValidTranscendentals(tr) && sheepPositions == Positions(sheep)
      modifies this`nextWayPointToHeadTo, this`timeOfLastCheckpoint, this`flockIsFailure, this`failureReason
      ensures Valid()
      ensures ProgressOf(this) == WayPointChecked(tr, now, old(ProgressOf(this)), dogPosition, sheepPositions, fences, wayPoints)
      ensures var com := Centroid(sheepPositions);
              var target := wayPoints[nextWayPointToHeadTo];
              angle == Atan2(tr, target.y - com.y, target.x - com.x)
    {
      var com, stragglers := TrueCentreOfMass(tr);
      AdvanceUnlessOutOfSight(tr, dogPosition, com, now);
      var target := wayPoints[nextWayPointToHeadTo];
      angle := Atan2(tr, target.y - com.y, target.x - com.x);
      FailIfTimeWasted(now);
    }

    /** AngleToNextWayPoint's first stage, from the centre of mass `com`. */
    method AdvanceUnlessOutOfSight(tr: Transcendentals, dogPosition: Point, com: Point, now: real)
      requires Valid() && ValidTranscendentals(tr)
      modifies this`nextWayPointToHeadTo, this`timeOfLastCheckpoint, this`flockIsFailure, this`failureReason
      ensures Valid()
      ensures ProgressOf(this) == CursorAdvanced(tr, now, old(ProgressOf(this)), dogPosition, com, fences, wayPoints)
    {
      if Distance(tr.sqrt, dogPosition, com) > SheepVisionDepth * 1.4 {
        failureReason := OutOfSight;
        flockIsFailure := true;
      } else {
        AdjustClosestWayPointForwards(tr, com, now);
      }
    }

    /** AngleToNextWayPoint's second stage: the time-wasting check. */
    method FailIfTimeWasted(now: real)
      modifies this`flockIsFailure, this`failureReason
      ensures ProgressOf(this) == TimeChecked(now, old(ProgressOf(this)), |wayPoints|)
    {
      if now - timeOfLastCheckpoint > MaximumTimeWasting {
        if nextWayPointToHeadTo < |wayPoints| - 1 {
          failureReason := TimeWasting;
        } else {
          failureReason := TimeUp;
        }
        flockIsFailure := true;
      }
    }

    /**
     * The sheep's part of Move: a failed flock stands still; otherwise each
     * sheep in turn takes one frame, with its own velocity change, and the
     * sheep in the scoring zone afterwards are counted.
     */
    method Move(tr: Transcendentals, increments: seq<Point>)
      requires Valid() && ValidTranscendentals(tr) && |increments| == |sheep|
      modifies this`numberOfSheepInPenZone, sheep
      ensures Valid()
      ensures old(flockIsFailure) ==>
                numberOfSheepInPenZone == old(numberOfSheepInPenZone) &&
                forall i :: 0 <= i < |sheep| ==> sheep[i].State() == old(sheep[i].State())
      ensures !old(flockIsFailure) ==>
                (forall i :: 0 <= i < |sheep| ==>
                   sheep[i].State() == Step(tr, old(sheep[i].State()), increments[i], penWidth, penHeight)) &&
                numberOfSheepInPenZone == CountInZone(scoringZone, Positions(sheep))
      ensures 0 <= numberOfSheepInPenZone <= |sheep| || old(flockIsFailure)
    {
      if flockIsFailure {
        return;
      }
      numberOfSheepInPenZone := MoveAll(tr, sheep, increments, penWidth, penHeight, scoringZone);
    }

    method FitnessScore() returns (score: real, wake: bool)
      requires Valid()
      ensures score == Fitness(scoringZone, nextWayPointToHeadTo, Positions(sheep))
      ensures var c := nextWayPointToHeadTo as real;
              (c < 100.0 ==> c <= score <= 100.0) && (100.0 <= c ==> 100.0 <= score <= c)
      ensures CountInZone(scoringZone, Positions(sheep)) == |sheep| ==> score == 100.0
      ensures CountInZone(scoringZone, Positions(sheep)) == 0 ==> score == nextWayPointToHeadTo as real
      ensures wake <==> score > ExitQuietModeScore
    {
      ghost var ps := Positions(sheep);
      score := 0.0;
      var i := 0;
      while i < |sheep|
        invariant 0 <= i <= |sheep|
        invariant score == SumScores(scoringZone, nextWayPointToHeadTo, ps[..i])
      {
        assert ps[..i + 1][..i] == ps[..i];
        score := score + (if Contains(scoringZone, sheep[i].position) then 100.0 else nextWayPointToHeadTo as real);
        i := i + 1;
      }
      assert ps[..i] == ps;
      score := score / |sheep| as real;
      FitnessBounds(scoringZone, nextWayPointToHeadTo, ps);
      wake := score > ExitQuietModeScore;
    }
  }

  /** The fitness of a flock: the mean of its sheep's scores. */
  function Fitness(zone: Rect, cursor: int, ps: seq<Point>): real
    requires 0 < |ps|
  {
    SumScores(zone, cursor, ps) / |ps| as real
  }

  /**
   * The fitness lies between 100 and the cursor, is 100 when every sheep is
   * in the zone and is the cursor when none is.
   */
  lemma FitnessBounds(zone: Rect, cursor: int, ps: seq<Point>)
    requires 0 < |ps|
    ensures var c := cursor as real;
            var f := Fitness(zone, cursor, ps);
            (c < 100.0 ==> c <= f <= 100.0) && (100.0 <= c ==> 100.0 <= f <= c)
    ensures CountInZone(zone, ps) == |ps| ==> Fitness(zone, cursor, ps) == 100.0
    ensures CountInZone(zone, ps) == 0 ==> Fitness(zone, cursor, ps) == cursor as real
  {
    FitnessBetween(zone, cursor, ps);
    if CountInZone(zone, ps) == |ps| {
      FitnessAllIn(zone, cursor, ps);
    }
    if CountInZone(zone, ps) == 0 {
      FitnessNoneIn(zone, cursor, ps);
    }
  }

  /** The fitness lies between the cursor and 100. */
  lemma FitnessBetween(zone: Rect, cursor: int, ps: seq<Point>)
    requires 0 < |ps|
    ensures var lo := if cursor < 100 then cursor as real else 100.0;
            var hi := if cursor < 100 then 100.0 else cursor as real;
            lo <= Fitness(zone, cursor, ps) <= hi
  {
    var lo := if cursor < 100 then cursor as real else 100.0;
    var hi := if cursor < 100 then 100.0 else cursor as real;
    SumScoresBounds(zone, cursor, ps);
    QuotientWithin(SumScores(zone, cursor, ps), |ps| as real, lo, hi);
  }

  /** A flock all of whose sheep are in the zone scores 100. */
  lemma FitnessAllIn(zone: Rect, cursor: int, ps: seq<Point>)
    requires 0 < |ps| && CountInZone(zone, ps) == |ps|
    ensures Fitness(zone, cursor, ps) == 100.0
  {
    var n := |ps| as real;
    SumScoresCounts(zone, cursor, ps);
    assert SumScores(zone, cursor, ps) == n * 100.0;
    QuotientWithin(SumScores(zone, cursor, ps), n, 100.0, 100.0);
  }

  /** A flock none of whose sheep is in the zone scores its cursor. */
  lemma FitnessNoneIn(zone: Rect, cursor: int, ps: seq<Point>)
    requires 0 < |ps| && CountInZone(zone, ps) == 0
    ensures Fitness(zone, cursor, ps) == cursor as real
  {
    var n := |ps| as real;
    SumScoresCounts(zone, cursor, ps);
    assert SumScores(zone, cursor, ps) == n * cursor as real;
    QuotientWithin(SumScores(zone, cursor, ps), n, cursor as real, cursor as real);
  }

  /**
   * With at most 500 way points the cursor never exceeds 500, so the
   * fitness never does either and FitnessScore never asks to leave quiet mode.
   */
  lemma QuietModeNeverLeft(zone: Rect, cursor: int, ps: seq<Point>)
    requires 0 < |ps| && cursor <= 500
    ensures Fitness(zone, cursor, ps) <= ExitQuietModeScore
  {
    FitnessBounds(zone, cursor, ps);
  }
}
