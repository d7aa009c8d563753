/**
 * The registry of networks, the static dictionary `s_networks` of
 * AI/NeuralNetwork.cs, and SortNetworkByFitness, which re-enumerates it by
 * ascending score. A dictionary is a map from key to network together with
 * the order in which it enumerates its keys.
 */
module Population {
  import opened Numerics
  import opened NeuralNetwork

  /*
   * The score formula.
   */

  /**
   * The Score SortNetworkByFitness gives a network: its fitness once it has
   * passed every waypoint, otherwise a bonus for generations that passed
   * every waypoint (per hundred generations) plus either the best fitness of
   * all or the average fitness with a thirtieth of the last one.
   */
  function ScoreOf(fitness: real, generation: int, best: real, average: real, max: real, wayPointCount: nat): real
  {
    if fitness > wayPointCount as real then fitness
    else (if generation == 0 then 0.0 else best / (generation as real / 100.0) * 26.0) +
         (if fitness == max then max else average + fitness / 30.0)
  }

  /** The Score of network `n` when `max` is the best fitness of all. */
  ghost function NewScore(n: Network, max: real, wayPointCount: nat): real
    reads n
  {
    ScoreOf(n.fitness, n.generationOfLastMutation,
            BestFitnessValue(n.performance, n.fitness, wayPointCount),
            AverageFitnessValue(n.performance, n.fitness), max, wayPointCount)
  }

  /** A network that has passed every waypoint is ranked by its fitness alone. */
  lemma PennedScoreIsFitness(fitness: real, generation: int, best: real, average: real, max: real, wayPointCount: nat)
    requires fitness > wayPointCount as real
    ensures ScoreOf(fitness, generation, best, average, max, wayPointCount) == fitness
  {
  }

  /** `init` folded with Math.Max over `s`. */
  function MaxOf(init: real, s: seq<real>): (m: real)
    ensures init <= m && forall i :: 0 <= i < |s| ==> s[i] <= m
    ensures m == init || exists i :: 0 <= i < |s| && s[i] == m
  {
    if s == [] then init else MaxReal(s[|s| - 1], MaxOf(init, s[..|s| - 1]))
  }

  /*
   * A stable sort by score, as LINQ's OrderBy performs it.
   */

  /** Every entry of `s` is a position of `scores`. */
  predicate InRange(scores: seq<real>, s: seq<nat>)
  {
    forall i :: 0 <= i < |s| ==> s[i] < |scores|
  }

  /** Position a comes before position b: a smaller score, or an equal score and an earlier position. */
  predicate Before(scores: seq<real>, a: nat, b: nat)
    requires a < |scores| && b < |scores|
  {
    scores[a] < scores[b] || (scores[a] == scores[b] && a < b)
  }

  /** Every earlier entry of `s` comes before every later one. */
  predicate Ordered(scores: seq<real>, s: seq<nat>)
    requires InRange(scores, s)
  {
    forall i, j :: 0 <= i < j < |s| ==> Before(scores, s[i], s[j])
  }

  /** `x` inserted into `s` before the first entry it comes before. */
  function Insert(scores: seq<real>, x: nat, s: seq<nat>): (r: seq<nat>)
    requires x < |scores| && InRange(scores, s)
    ensures InRange(scores, r) && multiset(r) == multiset(s) + multiset{x}
  {
    if s == [] then [x]
    else if Before(scores, x, s[0]) then [x] + s
    else
      assert s == [s[0]] + s[1..];
      [s[0]] + Insert(scores, x, s[1..])
  }

  /** Insertion sort of `s` under Before. */
  function StableSort(scores: seq<real>, s: seq<nat>): (r: seq<nat>)
    requires InRange(scores, s)
    ensures InRange(scores, r) && multiset(r) == multiset(s)
  {
    if s == [] then []
    else
      assert s == s[..|s| - 1] + [s[|s| - 1]];
      Insert(scores, s[|s| - 1], StableSort(scores, s[..|s| - 1]))
  }

  lemma BeforeTransitive(scores: seq<real>, a: nat, b: nat, c: nat)
    requires a < |scores| && b < |scores| && c < |scores|
    requires Before(scores, a, b) && Before(scores, b, c)
    ensures Before(scores, a, c)
  {
  }

  lemma {:induction false} InsertOrdered(scores: seq<real>, x: nat, s: seq<nat>)
    requires x < |scores| && InRange(scores, s) && Ordered(scores, s) && x !in s
    ensures Ordered(scores, Insert(scores, x, s))
  {
    if s != [] {
      if Before(scores, x, s[0]) {
        InsertAtFrontOrdered(scores, x, s);
      } else {
        assert x != s[0];
        var tail := Insert(scores, x, s[1..]);
        assert x !in s[1..];
        InsertOrdered(scores, x, s[1..]);
        forall y | y in tail
          ensures y < |scores| && Before(scores, s[0], y)
        {
          assert y in multiset(tail);
          if y != x {
            assert y in multiset(s[1..]);
            var k :| 0 <= k < |s[1..]| && s[1..][k] == y;
            assert s[k + 1] == y;
          }
        }
        ConsOrdered(scores, s[0], tail);
      }
    }
  }

  /** An entry that comes before the head of an ordered sequence may be put in front of it. */
  lemma InsertAtFrontOrdered(scores: seq<real>, x: nat, s: seq<nat>)
    requires x < |scores| && InRange(scores, s) && Ordered(scores, s)
    requires s != [] && Before(scores, x, s[0])
    ensures InRange(scores, [x] + s) && Ordered(scores, [x] + s)
  {
    var r := [x] + s;
    forall i, j | 0 <= i < j < |r|
      ensures Before(scores, r[i], r[j])
    {
      if i == 0 && 1 < j {
        BeforeTransitive(scores, x, s[0], s[j - 1]);
      }
    }
  }

  /** An entry that comes before every entry of an ordered sequence may be put in front of it. */
  lemma ConsOrdered(scores: seq<real>, y: nat, tail: seq<nat>)
    requires y < |scores| && InRange(scores, tail) && Ordered(scores, tail)
    requires forall z :: z in tail ==> z < |scores| && Before(scores, y, z)
    ensures InRange(scores, [y] + tail) && Ordered(scores, [y] + tail)
  {
    var r := [y] + tail;
    forall i, j | 0 <= i < j < |r|
      ensures Before(scores, r[i], r[j])
    {
      if i == 0 {
        assert r[j] == tail[j - 1] && r[j] in tail;
      } else {
        assert r[i] == tail[i - 1] && r[j] == tail[j - 1];
      }
    }
  }

  /** Entries at distinct positions of `s` differ. */
  predicate Distinct(s: seq<nat>)
  {
    forall i, j :: 0 <= i < j < |s| ==> s[i] != s[j]
  }

  lemma {:induction false} StableSortOrdered(scores: seq<real>, s: seq<nat>)
    requires InRange(scores, s) && Distinct(s)
    ensures Ordered(scores, StableSort(scores, s))
  {
    if s != [] {
      var n := |s| - 1;
      var front := s[..n];
      StableSortOrdered(scores, front);
      var sorted := StableSort(scores, front);
      assert s == front + [s[n]];
      assert forall k :: 0 <= k < |front| ==> front[k] != s[n];
      assert s[n] !in multiset(front);
      assert s[n] !in multiset(sorted);
      InsertOrdered(scores, s[n], sorted);
    }
  }

  /** The positions 0, 1, ..., n - 1 in order. */
  function Positions(n: nat): (r: seq<nat>)
    ensures |r| == n && forall i :: 0 <= i < n ==> r[i] == i
  {
    seq(n, i => i)
  }

  /**
   * The permutation of positions that OrderBy(score) applies: ascending
   * score, and entries with equal scores in their old order.
   */
  function SortPermutation(scores: seq<real>): (perm: seq<nat>)
    ensures |perm| == |scores| && InRange(scores, perm)
    ensures multiset(perm) == multiset(Positions(|scores|))
    ensures forall i, j :: 0 <= i < j < |perm| ==> scores[perm[i]] <= scores[perm[j]]
    ensures forall i, j :: 0 <= i < j < |perm| && scores[perm[i]] == scores[perm[j]] ==> perm[i] < perm[j]
  {
    var p := Positions(|scores|);
    StableSortOrdered(scores, p);
    assert |multiset(StableSort(scores, p))| == |multiset(p)|;
    StableSort(scores, p)
  }

  /** A permutation of positions contains every position once. */
  lemma PermutationOfPositions(perm: seq<nat>, n: nat)
    requires multiset(perm) == multiset(Positions(n))
    ensures |perm| == n
    ensures forall i :: 0 <= i < n ==> i in perm
    ensures Distinct(perm)
  {
    assert |multiset(perm)| == |multiset(Positions(n))|;
    forall i | 0 <= i < n
      ensures i in perm
    {
      assert Positions(n)[i] == i;
      assert i in multiset(Positions(n));
    }
    forall i, j | 0 <= i < j < |perm|
      ensures perm[i] != perm[j]
    {
      if perm[i] == perm[j] {
        var x := perm[i];
        assert perm == perm[..i] + [x] + perm[i + 1..j] + [x] + perm[j + 1..];
        assert multiset(perm)[x] >= 2;
        assert x < n by {
          assert x in multiset(Positions(n));
        }
        OnceInPositions(n, x);
        assert false;
      }
    }
  }

  lemma {:induction false} OnceInPositions(n: nat, x: nat)
    requires x < n
    ensures multiset(Positions(n))[x] == 1
  {
    if n - 1 == x {
      assert Positions(n) == Positions(n - 1) + [x];
      NotInPositions(n - 1, x);
    } else {
      assert Positions(n) == Positions(n - 1) + [n - 1];
      OnceInPositions(n - 1, x);
    }
  }

  lemma NotInPositions(n: nat, x: nat)
    requires n <= x
    ensures multiset(Positions(n))[x] == 0
  {
    assert x !in Positions(n);
  }

  /** The keys in the order a permutation of their positions gives. */
  function Reorder<T>(keys: seq<T>, perm: seq<nat>): (r: seq<T>)
    requires forall i :: 0 <= i < |perm| ==> perm[i] < |keys|
    ensures |r| == |perm| && forall i :: 0 <= i < |perm| ==> r[i] == keys[perm[i]]
  {
    seq(|perm|, i requires 0 <= i < |perm| => keys[perm[i]])
  }

  /** `order` enumerates every key of `keys` exactly once. */
  ghost predicate KeyOrder(keys: set<int>, order: seq<int>)
  {
    |order| == |keys| &&
    (forall i, j :: 0 <= i < j < |order| ==> order[i] != order[j]) &&
    (forall k :: k in keys <==> k in order) &&
    (forall i :: 0 <= i < |order| ==> order[i] in keys)
  }

  /** Reordering an enumeration by a permutation of its positions enumerates the same keys. */
  lemma ReorderKeepsKeys(keys: set<int>, order: seq<int>, perm: seq<nat>)
    requires KeyOrder(keys, order) && multiset(perm) == multiset(Positions(|order|))
    ensures forall i :: 0 <= i < |perm| ==> perm[i] < |order|
    ensures KeyOrder(keys, Reorder(order, perm))
  {
    PermutationOfPositions(perm, |order|);
    forall i | 0 <= i < |perm|
      ensures perm[i] < |order|
    {
      assert perm[i] in multiset(Positions(|order|));
    }
    var r := Reorder(order, perm);
    forall k | k in order
      ensures k in r
    {
      var i :| 0 <= i < |order| && order[i] == k;
      assert i in perm;
      var j :| 0 <= j < |perm| && perm[j] == i;
      assert r[j] == k;
    }
    forall i, j | 0 <= i < j < |r|
      ensures r[i] != r[j]
    {
      if perm[i] < perm[j] {
        assert order[perm[i]] != order[perm[j]];
      } else {
        assert perm[i] != perm[j];
        assert order[perm[j]] != order[perm[i]];
      }
    }
  }

  /*
   * The registry.
   */

  /** The fields SortNetworkByFitness leaves alone: all but Score. */
  twostate predicate OnlyScoreChanged(n: Network)
    reads n
  {
    unchanged(n`neurons, n`biases, n`weights, n`performance, n`fitness,
              n`generationOfLastMutation, n`mutated, n`rank)
  }

  class Registry {
    /** The network bound to each key. */
    var slots: map<int, Network>
    /** The order in which the dictionary enumerates its keys. */
    var order: seq<int>
    /** The networks the registry holds. */
    ghost var Repr: set<object>

    /** Every entry of `keys` is a key bound to a network the registry holds. */
    ghost predicate Enumerates(keys: seq<int>)
      reads this`slots, this`Repr
    {
      forall i :: 0 <= i < |keys| ==> keys[i] in slots && slots[keys[i]] in Repr
    }

    /** Every key enumerated exactly once, and every network held and bound to its own Id. */
    ghost predicate Valid()
      reads this
    {
      this !in Repr && KeyOrder(slots.Keys, order) && Enumerates(order) &&
      (forall k :: k in slots ==> slots[k] in Repr && slots[k].id == k)
    }

    /** The fitness of each network, in the order of `keys`. */
    ghost function FitnessesIn(keys: seq<int>): (r: seq<real>)
      reads this`slots, this`Repr, Repr
      requires Enumerates(keys)
      ensures |r| == |keys| && forall i :: 0 <= i < |keys| ==> r[i] == slots[keys[i]].fitness
    {
      if keys == [] then []
      else FitnessesIn(keys[..|keys| - 1]) + [slots[keys[|keys| - 1]].fitness]
    }

    /** The score of each network, in the order of `keys`. */
    ghost function ScoresIn(keys: seq<int>): (r: seq<real>)
      reads this`slots, this`Repr, Repr
      requires Enumerates(keys)
      ensures |r| == |keys| && forall i :: 0 <= i < |keys| ==> r[i] == slots[keys[i]].score
    {
      if keys == [] then []
      else ScoresIn(keys[..|keys| - 1]) + [slots[keys[|keys| - 1]].score]
    }

    /** An empty dictionary. */
    constructor ()
      ensures Valid() && slots == map[] && order == [] && Repr == {}
    {
      slots := map[];
      order := [];
      Repr := {};
    }

    /** s_networks.Clear(). */
    method Clear()
      modifies this
      ensures Valid() && slots == map[] && order == [] && Repr == {}
    {
      slots := map[];
      order := [];
      Repr := {};
    }

    /**
     * The registration at the end of the constructor: a new key is added
     * at the end of the enumeration, an existing key is rebound in place.
     */
    method Register(net: Network)
      requires Valid()
      modifies this
      ensures Valid()
      ensures slots == old(slots)[net.id := net] && Repr == old(Repr) + {net}
      ensures order == if net.id in old(slots) then old(order) else old(order) + [net.id]
    {
      if net.id !in slots {
        order := order + [net.id];
      }
      slots := slots[net.id := net];
      Repr := Repr + {net};
    }

    /**
     * SortNetworkByFitness: when the best fitness of all is 0 nothing
     * changes; otherwise every network is given its Score and the keys are
     * re-enumerated by ascending score (`scores`, the new scores in the old
     * enumeration order), ties in their old order, every key still bound to
     * the same network.
     */
    method SortNetworkByFitness(wayPointCount: nat) returns (ghost max: real, ghost scores: seq<real>)
      requires Valid()
      modifies this`order, Repr
      ensures Valid() && unchanged(this`slots, this`Repr)
      ensures max == MaxOf(-1.0, old(FitnessesIn(order)))
      ensures forall n: Network :: n in Repr ==> OnlyScoreChanged(n)
      ensures max == 0.0 ==> unchanged(this`order) && forall n: Network :: n in Repr ==> unchanged(n`score)
      ensures max != 0.0 ==> forall k {:trigger NewScore(slots[k], max, wayPointCount)} :: k in slots ==> slots[k].score == NewScore(slots[k], max, wayPointCount)
      ensures max != 0.0 ==> |scores| == |old(order)| && forall i :: 0 <= i < |scores| ==> scores[i] == slots[old(order)[i]].score
      ensures max != 0.0 ==> order == Reorder(old(order), SortPermutation(scores))
      ensures max != 0.0 ==> forall i, j :: 0 <= i < j < |order| ==> slots[order[i]].score <= slots[order[j]].score
    {
      var best := BestOfAll();
      max := best;
      scores := [];
      if best == 0.0 {
        return;
      }
      var collected := ScoreAndOrder(best, wayPointCount);
      scores := collected;
      EnumerationAscends(old(order), scores);
    }

    /**
     * Once the keys are re-enumerated by SortPermutation of their scores,
     * scores ascend along the enumeration, and networks with equal scores
     * keep their relative order.
     */
    lemma EnumerationAscends(keys: seq<int>, scores: seq<real>)
      requires Enumerates(keys) && |scores| == |keys|
      requires forall i :: 0 <= i < |keys| ==> scores[i] == slots[keys[i]].score
      requires order == Reorder(keys, SortPermutation(scores))
      ensures forall i, j :: 0 <= i < j < |order| ==> slots[order[i]].score <= slots[order[j]].score
      ensures forall i, j :: 0 <= i < j < |order| && slots[order[i]].score == slots[order[j]].score ==>
                SortPermutation(scores)[i] < SortPermutation(scores)[j]
    {
      var perm := SortPermutation(scores);
      forall i | 0 <= i < |order|
        ensures slots[order[i]].score == scores[perm[i]]
      {
        assert order[i] == keys[perm[i]];
      }
    }

    /** The rest of SortNetworkByFitness once the best fitness is known and not 0. */
    method ScoreAndOrder(best: real, wayPointCount: nat) returns (scores: seq<real>)
      requires Valid()
      modifies this`order, Repr
      ensures Valid() && unchanged(this`slots, this`Repr)
      ensures forall n: Network :: n in Repr ==> OnlyScoreChanged(n)
      ensures forall k {:trigger NewScore(slots[k], best, wayPointCount)} :: k in slots ==> slots[k].score == NewScore(slots[k], best, wayPointCount)
      ensures |scores| == |old(order)| && forall i :: 0 <= i < |scores| ==> scores[i] == slots[old(order)[i]].score
      ensures order == Reorder(old(order), SortPermutation(scores))
    {
      ScoreAll(best, wayPointCount);
      scores := CollectAndOrder();
    }

    /** OrderBy on the scores, then ToDictionary: the keys re-enumerated by ascending score. */
    method CollectAndOrder() returns (scores: seq<real>)
      requires Valid()
      modifies this`order
      ensures Valid()
      ensures |scores| == |old(order)| && forall i :: 0 <= i < |scores| ==> scores[i] == slots[old(order)[i]].score
      ensures order == Reorder(old(order), SortPermutation(scores))
    {
      scores := CollectScores();
      OrderByScore(scores);
    }

    /** SortNetworkByFitness's first loop: Math.Max of -1 and every fitness. */
    method BestOfAll() returns (best: real)
      requires Valid()
      ensures best == MaxOf(-1.0, old(FitnessesIn(order)))
    {
      best := -1.0;
      var i := 0;
      while i < |order|
        invariant 0 <= i <= |order|
        invariant best == MaxOf(-1.0, FitnessesIn(order[..i]))
      {
        best := MaxReal(slots[order[i]].fitness, best);
        assert order[..i + 1][..i] == order[..i];
        i := i + 1;
      }
      assert order[..i] == order;
    }

    /** SortNetworkByFitness's second loop: the Score of every network. */
    method ScoreAll(best: real, wayPointCount: nat)
      requires Valid()
      modifies Repr
      ensures Valid()
      ensures forall n: Network :: n in Repr ==> OnlyScoreChanged(n)
      ensures forall k {:trigger NewScore(slots[k], best, wayPointCount)} :: k in slots ==> slots[k].score == NewScore(slots[k], best, wayPointCount)
    {
      var i := 0;
      while i < |order|
        invariant 0 <= i <= |order|
        invariant Valid()
        invariant forall n: Network :: n in Repr ==> OnlyScoreChanged(n)
        invariant forall j :: 0 <= j < i ==> slots[order[j]].score == NewScore(slots[order[j]], best, wayPointCount)
      {
        ScoreOne(slots[order[i]], best, wayPointCount);
        i := i + 1;
      }
      forall k | k in slots
        ensures slots[k].score == NewScore(slots[k], best, wayPointCount)
      {
        var j :| 0 <= j < |order| && order[j] == k;
      }
    }

    /** The body of the second loop: one network's Score. */
    static method ScoreOne(n: Network, best: real, wayPointCount: nat)
      modifies n`score
      ensures n.score == NewScore(n, best, wayPointCount)
    {
      var bestFitness := n.BestFitness(wayPointCount);
      var average := n.AverageFitness();
      n.score := ScoreOf(n.fitness, n.generationOfLastMutation, bestFitness, average, best, wayPointCount);
    }

    /** The scores in enumeration order, which OrderBy sorts by. */
    method CollectScores() returns (scores: seq<real>)
      requires Valid()
      ensures scores == ScoresIn(order)
    {
      scores := [];
      var i := 0;
      while i < |order|
        invariant 0 <= i <= |order|
        invariant scores == ScoresIn(order[..i])
      {
        scores := scores + [slots[order[i]].score];
        assert order[..i + 1][..i] == order[..i];
        i := i + 1;
      }
      assert order[..i] == order;
    }

    /** The ToDictionary of the sorted pairs: the keys enumerated in the sorted order. */
    method OrderByScore(scores: seq<real>)
      requires Valid() && |scores| == |order|
      modifies this`order
      ensures Valid()
      ensures order == Reorder(old(order), SortPermutation(scores))
    {
      var perm := SortPermutation(scores);
      ReorderKeepsKeys(slots.Keys, order, perm);
      order := Reorder(order, perm);
    }

    /** The networks in enumeration order: the list MutateFlock fills from the keys. */
    method Enumerated() returns (nets: seq<Network>)
      requires Valid()
      ensures |nets| == |order| && forall i :: 0 <= i < |order| ==> nets[i] == slots[order[i]]
    {
      nets := [];
      var i := 0;
      while i < |order|
        invariant 0 <= i <= |order| && |nets| == i
        invariant forall j :: 0 <= j < i ==> nets[j] == slots[order[j]]
      {
        nets := nets + [slots[order[i]]];
        i := i + 1;
      }
    }

    /**
     * The unsorting at the end of MutateFlock, for keys 0 to n - 1: a new
     * dictionary filled by looking up the keys in ascending order, each
     * network stored under its own Id. Every key stays bound to the same
     * network and the keys are enumerated in ascending order again.
     */
    method Unsort(n: nat)
      requires Valid() && forall k :: k in slots <==> 0 <= k < n
      modifies this`slots, this`order
      ensures Valid() && slots == old(slots) && order == Positions(n)
    {
      var rebuilt: map<int, Network> := map[];
      var keys: seq<int> := [];
      var i := 0;
      while i < n
        invariant 0 <= i <= n && |keys| == i
        invariant forall j :: 0 <= j < i ==> keys[j] == j
        invariant forall k :: k in rebuilt <==> 0 <= k < i
        invariant forall k :: k in rebuilt ==> rebuilt[k] == slots[k]
      {
        var net := slots[i];
        if net.id !in rebuilt {
          keys := keys + [net.id];
        }
        rebuilt := rebuilt[net.id := net];
        i := i + 1;
      }
      assert rebuilt == slots;
      RangeSize(slots.Keys, n);
      assert keys == Positions(n);
      forall k | 0 <= k < n
        ensures k in keys
      {
        assert keys[k] == k;
      }
      slots := rebuilt;
      order := keys;
    }
  }

  /** A set of integers that is exactly 0, ..., n - 1 has n elements. */
  lemma {:induction false} RangeSize(s: set<int>, n: nat)
    requires forall k :: k in s <==> 0 <= k < n
    ensures |s| == n
  {
    if n > 0 {
      assert n - 1 in s;
      RangeSize(s - {n - 1}, n - 1);
      assert s == (s - {n - 1}) + {n - 1};
    } else {
      forall k | k in s
        ensures false
      {
      }
      assert s == {};
    }
  }
}
