/**
 * The parts of the window (Form1.cs) that compute something: the speed
 * cycle of the "F" key, the competition ranks GraphPerformance gives the
 * networks, and the scaling of the way points onto the playing field.
 */
module Form1 {
  import opened Numerics
  import opened NeuralNetwork
  import opened Population

  /*
   * The speed cycle.
   */

  /** The timer intervals (milliseconds) the "F" key steps through. */
  predicate IsSpeed(interval: int)
  {
    interval == 10 || interval == 20 || interval == 100 || interval == 1000
  }

  /**
   * The interval after one press of "F": each of 10, 20 and 100 is slowed
   * to the next one, and anything else (1000, or the start-up interval)
   * goes back to 10.
   */
  function NextInterval(interval: int): (r: int)
    ensures IsSpeed(r)
    ensures IsSpeed(interval) && interval != 1000 ==> interval < r
    ensures !(IsSpeed(interval) && interval != 1000) <==> r == 10
  {
    match interval
    case 10 => 20
    case 20 => 100
    case 100 => 1000
    case _ => 10
  }

  /** The interval after `k` presses. */
  function Pressed(interval: int, k: nat): int
  {
    if k == 0 then interval else NextInterval(Pressed(interval, k - 1))
  }

  /** Four presses bring every speed of the cycle back to itself, and no fewer do. */
  lemma {:induction false} SpeedsCycle(interval: int)
    requires IsSpeed(interval)
    ensures Pressed(interval, 4) == interval
    ensures forall k :: 1 <= k < 4 ==> Pressed(interval, k) != interval
  {
    assert Pressed(interval, 1) == NextInterval(interval);
    assert Pressed(interval, 2) == NextInterval(NextInterval(interval));
    assert Pressed(interval, 3) == NextInterval(NextInterval(NextInterval(interval)));
  }

  /** From any interval, one press enters the cycle, and the cycle visits every speed. */
  lemma {:induction false} PressingReachesEverySpeed(interval: int, target: int)
    requires IsSpeed(target)
    ensures exists k: nat :: 1 <= k <= 4 && Pressed(interval, k) == target
  {
    var first := NextInterval(interval);
    assert Pressed(interval, 1) == first;
    assert Pressed(interval, 2) == NextInterval(first);
    assert Pressed(interval, 3) == NextInterval(NextInterval(first));
    assert Pressed(interval, 4) == NextInterval(NextInterval(NextInterval(first)));
  }

  /** The form's timer; only its interval is modelled. */
  class Timer {
    var interval: int

    /** The timer as the form's constructor leaves it. */
    constructor ()
      ensures interval == 5
    {
      interval := 5;
    }

    /** StepThroughSpeeds: the next interval of the cycle. */
    method StepThroughSpeeds()
      modifies this
      ensures interval == NextInterval(old(interval))
    {
      var newInterval := match interval
        case 10 => 20
        case 20 => 100
        case 100 => 1000
        case _ => 10;
      interval := newInterval;
    }
  }

  /*
   * Competition ranks.
   */

  predicate Descending(d: seq<int>)
  {
    forall i, j :: 0 <= i < j < |d| ==> d[i] >= d[j]
  }

  /** `x` inserted into a descending sequence after every element at least as large. */
  function InsertDescending(x: int, d: seq<int>): (r: seq<int>)
    requires Descending(d)
    ensures Descending(r) && multiset(r) == multiset(d) + multiset{x}
    ensures |r| == |d| + 1 && (r[0] == x || (d != [] && r[0] == d[0]))
  {
    if d == [] || d[0] < x then [x] + d
    else
      var rest := InsertDescending(x, d[1..]);
      assert d == [d[0]] + d[1..];
      assert rest[0] <= d[0];
      [d[0]] + rest
  }

  /** OrderByDescending on integers. */
  function SortDescending(s: seq<int>): (d: seq<int>)
    ensures Descending(d) && multiset(d) == multiset(s)
  {
    if s == [] then []
    else
      assert s == [s[0]] + s[1..];
      InsertDescending(s[0], SortDescending(s[1..]))
  }

  /** The first position of `v` in `d`: `lookup[v].First()` of the zero-based positions. */
  function FirstIndex(d: seq<int>, v: int): (i: nat)
    requires v in d
    ensures i < |d| && d[i] == v && v !in d[..i]
  {
    if d[0] == v then 0
    else
      var i := FirstIndex(d[1..], v);
      assert d[..i + 1] == [d[0]] + d[1..][..i];
      i + 1
  }

  /**
   * The ranks GraphPerformance computes: the scores sorted descending, and
   * each score ranked by the one-based position of its first occurrence.
   */
  function Ranks(scores: seq<int>): (r: seq<int>)
    ensures |r| == |scores|
  {
    var sorted := SortDescending(scores);
    seq(|scores|, i requires 0 <= i < |scores| =>
      assert scores[i] in multiset(sorted);
      FirstIndex(sorted, scores[i]) + 1)
  }

  /*
   * CountAbove, the number of entries strictly greater than a value, is
   * the one BestFitness uses; these lemmas relate it to the ranks.
   */

  lemma {:induction false} CountAboveAppend(a: seq<int>, b: seq<int>, v: int)
    ensures CountAbove(a + b, v) == CountAbove(a, v) + CountAbove(b, v)
    decreases |b|
  {
    if b == [] {
      assert a + b == a;
    } else {
      assert (a + b)[..|a + b| - 1] == a + b[..|b| - 1];
      CountAboveAppend(a, b[..|b| - 1], v);
    }
  }

  lemma CountAboveCons(x: int, s: seq<int>, v: int)
    ensures CountAbove([x] + s, v) == (if x > v then 1 else 0) + CountAbove(s, v)
  {
    CountAboveAppend([x], s, v);
    assert [x][..0] == [];
  }

  /** The count depends only on the multiset of values, not on their order. */
  lemma {:induction false} CountAbovePermutation(a: seq<int>, b: seq<int>, v: int)
    requires multiset(a) == multiset(b)
    ensures CountAbove(a, v) == CountAbove(b, v)
    decreases |a|
  {
    if a != [] {
      assert a[0] in multiset(b);
      var k :| 0 <= k < |b| && b[k] == a[0];
      var rest := b[..k] + b[k + 1..];
      assert b == b[..k] + ([b[k]] + b[k + 1..]);
      assert a == [a[0]] + a[1..];
      assert multiset(a[1..]) == multiset(a) - multiset{a[0]};
      assert multiset(b) == multiset(b[..k]) + multiset{b[k]} + multiset(b[k + 1..]);
      assert multiset(a[1..]) == multiset(rest);
      CountAbovePermutation(a[1..], rest, v);
      CountAboveCons(a[0], a[1..], v);
      CountAboveAppend(b[..k], [b[k]] + b[k + 1..], v);
      CountAboveAppend(b[..k], b[k + 1..], v);
      CountAboveCons(b[k], b[k + 1..], v);
    }
  }

  /** In a descending sequence, everything before the first `v` is greater than `v`. */
  lemma {:induction false} FirstIndexCountsAbove(d: seq<int>, v: int)
    requires Descending(d) && v in d
    ensures FirstIndex(d, v) == CountAbove(d, v)
  {
    assert d == [d[0]] + d[1..];
    if d[0] == v {
      CountAboveNone(d, v);
    } else {
      assert v in d[1..];
      FirstIndexCountsAbove(d[1..], v);
      CountAboveCons(d[0], d[1..], v);
    }
  }

  /** Every rank is one more than the number of strictly greater scores. */
  lemma RanksCountHigher(scores: seq<int>)
    ensures forall i :: 0 <= i < |scores| ==> Ranks(scores)[i] == 1 + CountAbove(scores, scores[i])
  {
    var sorted := SortDescending(scores);
    forall i | 0 <= i < |scores|
      ensures Ranks(scores)[i] == 1 + CountAbove(scores, scores[i])
    {
      assert scores[i] in multiset(sorted);
      FirstIndexCountsAbove(sorted, scores[i]);
      CountAbovePermutation(sorted, scores, scores[i]);
    }
  }

  /** A value of `s` is not above itself, so fewer than all of `s` are above it. */
  lemma {:induction false} CountAboveMember(s: seq<int>, v: int)
    requires v in s
    ensures CountAbove(s, v) < |s|
  {
    assert s == [s[0]] + s[1..];
    CountAboveCons(s[0], s[1..], v);
    if s[0] != v {
      CountAboveMember(s[1..], v);
    }
  }

  /** Strictly more values lie above a smaller value than above a larger one that occurs. */
  lemma {:induction false} CountAboveStrictlyAntitone(s: seq<int>, v: int, w: int)
    requires v < w && w in s
    ensures CountAbove(s, w) < CountAbove(s, v)
  {
    assert s == [s[0]] + s[1..];
    CountAboveCons(s[0], s[1..], v);
    CountAboveCons(s[0], s[1..], w);
    if s[0] == w {
      CountAboveAntitone(s[1..], v, w);
    } else {
      CountAboveStrictlyAntitone(s[1..], v, w);
    }
  }

  /**
   * The competition ranking: equal scores share a rank, a strictly greater
   * score has a strictly smaller rank, the top score is ranked 1, and every
   * rank lies between 1 and the number of networks.
   */
  lemma RanksAreCompetitionRanks(scores: seq<int>)
    ensures forall i, j :: 0 <= i < |scores| && 0 <= j < |scores| && scores[i] == scores[j] ==>
      Ranks(scores)[i] == Ranks(scores)[j]
    ensures forall i, j :: 0 <= i < |scores| && 0 <= j < |scores| && scores[i] > scores[j] ==>
      Ranks(scores)[i] < Ranks(scores)[j]
    ensures forall i :: 0 <= i < |scores| ==> 1 <= Ranks(scores)[i] <= |scores|
    ensures forall i :: 0 <= i < |scores| && (forall j :: 0 <= j < |scores| ==> scores[j] <= scores[i]) ==>
      Ranks(scores)[i] == 1
  {
    RanksCountHigher(scores);
    forall i, j | 0 <= i < |scores| && 0 <= j < |scores| && scores[i] > scores[j]
      ensures Ranks(scores)[i] < Ranks(scores)[j]
    {
      CountAboveStrictlyAntitone(scores, scores[j], scores[i]);
    }
    forall i | 0 <= i < |scores|
      ensures 1 <= Ranks(scores)[i] <= |scores|
    {
      CountAboveMember(scores, scores[i]);
    }
    forall i | 0 <= i < |scores| && (forall j :: 0 <= j < |scores| ==> scores[j] <= scores[i])
      ensures Ranks(scores)[i] == 1
    {
      CountAboveNone(scores, scores[i]);
    }
  }

  /** The fields GraphPerformance leaves alone: all but Rank. */
  twostate predicate OnlyRankChanged(n: Network)
    reads n
  {
    unchanged(n`neurons, n`biases, n`weights, n`performance, n`fitness, n`score,
              n`generationOfLastMutation, n`mutated)
  }

  /** The `scores` dictionary of GraphPerformance: each Score rounded, in enumeration order. */
  method RoundedScores(registry: Registry) returns (scores: seq<int>)
    requires registry.Valid()
    ensures |scores| == |registry.order|
    ensures forall i :: 0 <= i < |scores| ==>
      scores[i] == RoundHalfEven(registry.slots[registry.order[i]].score)
  {
    scores := [];
    var i := 0;
    while i < |registry.order|
      invariant 0 <= i <= |registry.order| && |scores| == i
      invariant forall j :: 0 <= j < i ==> scores[j] == RoundHalfEven(registry.slots[registry.order[j]].score)
    {
      scores := scores + [RoundHalfEven(registry.slots[registry.order[i]].score)];
      i := i + 1;
    }
  }

  /** The closing loop of the rank computation: the i-th key enumerated gets the i-th rank. */
  method SetRanks(registry: Registry, ranks: seq<int>)
    requires registry.Valid() && |ranks| == |registry.order|
    modifies registry.Repr
    ensures forall i :: 0 <= i < |ranks| ==> registry.slots[registry.order[i]].rank == ranks[i]
    ensures forall n: Network :: n in registry.Repr ==> OnlyRankChanged(n)
  {
    var x := 0;
    while x < |registry.order|
      invariant 0 <= x <= |ranks|
      invariant forall i :: 0 <= i < x ==> registry.slots[registry.order[i]].rank == ranks[i]
      invariant forall n: Network :: n in registry.Repr ==> OnlyRankChanged(n)
    {
      var net := registry.slots[registry.order[x]];
      assert forall i :: 0 <= i < x ==> registry.slots[registry.order[i]] != net by {
        forall i | 0 <= i < x
          ensures registry.slots[registry.order[i]] != net
        {
          assert registry.order[i] != registry.order[x];
          assert registry.slots[registry.order[i]].id == registry.order[i];
        }
      }
      net.rank := ranks[x];
      x := x + 1;
    }
  }

  /**
   * The rank part of GraphPerformance, which runs in silent mode only:
   * every network is ranked one more than the number of networks whose
   * rounded Score is strictly greater than its own; nothing but the ranks
   * changes.
   */
  method RankNetworks(registry: Registry, silentMode: bool) returns (scores: seq<int>)
    requires registry.Valid()
    modifies registry.Repr
    ensures forall n: Network :: n in registry.Repr ==> OnlyRankChanged(n)
    ensures !silentMode ==> scores == [] && forall n: Network :: n in registry.Repr ==> unchanged(n)
    ensures silentMode ==> |scores| == |registry.order|
    ensures silentMode ==> forall i :: 0 <= i < |scores| ==>
      scores[i] == RoundHalfEven(registry.slots[registry.order[i]].score) &&
      registry.slots[registry.order[i]].rank == 1 + CountAbove(scores, scores[i])
  {
    if !silentMode {
      return [];
    }
    scores := RoundedScores(registry);
    var ranks := Ranks(scores);
    RanksCountHigher(scores);
    SetRanks(registry, ranks);
    forall i | 0 <= i < |scores|
      ensures scores[i] == RoundHalfEven(registry.slots[registry.order[i]].score)
    {
      assert registry.slots[registry.order[i]] in registry.Repr;
    }
  }

  /*
   * Way-point scaling.
   */

  /** The size of each playing field in pixels (c_width, c_height), where the pen and fences lie. */
  const FieldWidth: int := 300
  const FieldHeight: int := 300

  datatype Point = Point(x: int, y: int)

  /**
   * ScalePoint: a way point laid out on the 674 by 500 reference grid,
   * scaled onto the 300 by 300 playing field, each coordinate truncated
   * toward zero. It builds the way points the sheep must pass through. A
   * point of the grid lands on the field, its corners on the field's corners.
   */
  function ScalePoint(x: int, y: int): (p: Point)
    ensures 0 <= x <= 674 ==> 0 <= p.x <= FieldWidth
    ensures 0 <= y <= 500 ==> 0 <= p.y <= FieldHeight
    ensures x == 0 && y == 0 ==> p == Point(0, 0)
    ensures x == 674 && y == 500 ==> p == Point(FieldWidth, FieldHeight)
  {
    Point(Trunc(x as real / 674.0 * FieldWidth as real), Trunc(y as real / 500.0 * FieldHeight as real))
  }

  /** Truncation toward zero never reverses an order. */
  lemma TruncMonotone(a: real, b: real)
    requires a <= b
    ensures Trunc(a) <= Trunc(b)
  {
  }

  /** ScalePoint preserves the order of each coordinate. */
  lemma {:induction false} ScalePointMonotone(x1: int, y1: int, x2: int, y2: int)
    requires x1 <= x2 && y1 <= y2
    ensures ScalePoint(x1, y1).x <= ScalePoint(x2, y2).x
    ensures ScalePoint(x1, y1).y <= ScalePoint(x2, y2).y
  {
    TruncMonotone(x1 as real / 674.0 * FieldWidth as real, x2 as real / 674.0 * FieldWidth as real);
    TruncMonotone(y1 as real / 500.0 * FieldHeight as real, y2 as real / 500.0 * FieldHeight as real);
  }
}
