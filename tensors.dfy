/**
 * The jagged tensors of a network (AI/NeuralNetwork.cs: Neurons, Biases,
 * Weights) as nested sequences: their shapes for a layer definition, the
 * weighted sum a neuron computes, and the layer-major flattening that the
 * network file format uses.
 */
module Tensors {

  /** `neurons` holds one vector per layer, as long as that layer. */
  predicate NeuronShape(layers: seq<nat>, neurons: seq<seq<real>>)
  {
    |neurons| == |layers| && forall l :: 0 <= l < |neurons| ==> |neurons[l]| == layers[l]
  }

  /** `biases` holds one vector per non-input layer, as long as that layer. */
  predicate BiasShape(layers: seq<nat>, biases: seq<seq<real>>)
  {
    |biases| + 1 == |layers| && forall l :: 0 <= l < |biases| ==> |biases[l]| == layers[l + 1]
  }

  /**
   * `weights[l]` holds, for each neuron of layer l + 1, one weight per
   * neuron of layer l.
   */
  predicate WeightShape(layers: seq<nat>, weights: seq<seq<seq<real>>>)
  {
    |weights| + 1 == |layers| &&
    forall l :: 0 <= l < |weights| ==>
      |weights[l]| == layers[l + 1] &&
      forall j :: 0 <= j < |weights[l]| ==> |weights[l][j]| == layers[l]
  }

  /** Two matrices with the same number of rows and equally long rows. */
  predicate SameRows(a: seq<seq<real>>, b: seq<seq<real>>)
  {
    |a| == |b| && forall l :: 0 <= l < |a| ==> |a[l]| == |b[l]|
  }

  /** Two three-level tensors of the same shape. */
  predicate SameRows3(a: seq<seq<seq<real>>>, b: seq<seq<seq<real>>>)
  {
    |a| == |b| && forall l :: 0 <= l < |a| ==> SameRows(a[l], b[l])
  }

  lemma BiasShapesAgree(layers: seq<nat>, a: seq<seq<real>>, b: seq<seq<real>>)
    requires BiasShape(layers, a) && BiasShape(layers, b)
    ensures SameRows(a, b)
  {
  }

  lemma WeightShapesAgree(layers: seq<nat>, a: seq<seq<seq<real>>>, b: seq<seq<seq<real>>>)
    requires WeightShape(layers, a) && WeightShape(layers, b)
    ensures SameRows3(a, b)
  {
    forall l | 0 <= l < |a|
      ensures SameRows(a[l], b[l])
    {
      assert |a[l]| == layers[l + 1] == |b[l]|;
      forall j | 0 <= j < |a[l]|
        ensures |a[l][j]| == |b[l][j]|
      {
        assert |a[l][j]| == layers[l];
        assert |b[l][j]| == layers[l];
      }
    }
  }

  /** The sum of `w[k] * x[k]`, accumulated from k = 0 upwards as FeedForward does. */
  function WeightedSum(w: seq<real>, x: seq<real>): real
    requires |w| == |x|
  {
    if |w| == 0 then 0.0
    else WeightedSum(w[..|w| - 1], x[..|x| - 1]) + w[|w| - 1] * x[|x| - 1]
  }

  /** A neuron whose weights are all zero ignores its inputs. */
  lemma {:induction false} WeightedSumOfZeroWeights(w: seq<real>, x: seq<real>)
    requires |w| == |x| && forall k :: 0 <= k < |w| ==> w[k] == 0.0
    ensures WeightedSum(w, x) == 0.0
  {
    if |w| != 0 {
      WeightedSumOfZeroWeights(w[..|w| - 1], x[..|x| - 1]);
    }
  }

  /** The weighted sum depends only on the first entries it pairs up. */
  lemma WeightedSumStep(w: seq<real>, x: seq<real>, k: nat)
    requires k < |w| == |x|
    ensures WeightedSum(w[..k + 1], x[..k + 1]) == WeightedSum(w[..k], x[..k]) + w[k] * x[k]
  {
    assert w[..k + 1][..k] == w[..k];
    assert x[..k + 1][..k] == x[..k];
  }

  /** The rows of `b` one after the other. */
  function Flatten2(b: seq<seq<real>>): (f: seq<real>)
  {
    if b == [] then [] else Flatten2(b[..|b| - 1]) + b[|b| - 1]
  }

  /** The matrices of `w` flattened one after the other. */
  function Flatten3(w: seq<seq<seq<real>>>): (f: seq<real>)
  {
    if w == [] then [] else Flatten3(w[..|w| - 1]) + Flatten2(w[|w| - 1])
  }

  /** Where row `l` of `b` starts in `Flatten2(b)`. */
  function Offset2(b: seq<seq<real>>, l: nat): nat
    requires l <= |b|
  {
    |Flatten2(b[..l])|
  }

  lemma Flatten2Append(b: seq<seq<real>>, row: seq<real>)
    ensures Flatten2(b + [row]) == Flatten2(b) + row
  {
    assert (b + [row])[..|b|] == b;
  }

  lemma Flatten3Append(w: seq<seq<seq<real>>>, m: seq<seq<real>>)
    ensures Flatten3(w + [m]) == Flatten3(w) + Flatten2(m)
  {
    assert (w + [m])[..|w|] == w;
  }

  /** Equally shaped matrices flatten to equally long sequences. */
  lemma {:induction false} Flatten2SameLength(a: seq<seq<real>>, b: seq<seq<real>>)
    requires SameRows(a, b)
    ensures |Flatten2(a)| == |Flatten2(b)|
  {
    if a != [] {
      Flatten2SameLength(a[..|a| - 1], b[..|b| - 1]);
    }
  }

  lemma {:induction false} Flatten3SameLength(a: seq<seq<seq<real>>>, b: seq<seq<seq<real>>>)
    requires SameRows3(a, b)
    ensures |Flatten3(a)| == |Flatten3(b)|
  {
    if a != [] {
      Flatten3SameLength(a[..|a| - 1], b[..|b| - 1]);
      Flatten2SameLength(a[|a| - 1], b[|b| - 1]);
    }
  }

  /** Flattening loses nothing: equally shaped matrices with equal flattenings are equal. */
  lemma {:induction false} Flatten2Injective(a: seq<seq<real>>, b: seq<seq<real>>)
    requires SameRows(a, b) && Flatten2(a) == Flatten2(b)
    ensures a == b
  {
    if a != [] {
      var n := |a| - 1;
      Flatten2SameLength(a[..n], b[..n]);
      var k := |Flatten2(a[..n])|;
      assert Flatten2(a[..n]) == Flatten2(a)[..k];
      assert Flatten2(b[..n]) == Flatten2(b)[..k];
      assert a[n] == Flatten2(a)[k..];
      assert b[n] == Flatten2(b)[k..];
      Flatten2Injective(a[..n], b[..n]);
      assert a == a[..n] + [a[n]];
      assert b == b[..n] + [b[n]];
    }
  }

  lemma {:induction false} Flatten3Injective(a: seq<seq<seq<real>>>, b: seq<seq<seq<real>>>)
    requires SameRows3(a, b) && Flatten3(a) == Flatten3(b)
    ensures a == b
  {
    if a != [] {
      var n := |a| - 1;
      Flatten3SameLength(a[..n], b[..n]);
      var k := |Flatten3(a[..n])|;
      assert Flatten3(a[..n]) == Flatten3(a)[..k];
      assert Flatten3(b[..n]) == Flatten3(b)[..k];
      assert Flatten2(a[n]) == Flatten3(a)[k..];
      assert Flatten2(b[n]) == Flatten3(b)[k..];
      Flatten3Injective(a[..n], b[..n]);
      Flatten2Injective(a[n], b[n]);
      assert a == a[..n] + [a[n]];
      assert b == b[..n] + [b[n]];
    }
  }

  /** Entry j of row l sits at Offset2(b, l) + j of the flattening. */
  lemma {:induction false} Flatten2Index(b: seq<seq<real>>, l: nat, j: nat)
    requires l < |b| && j < |b[l]|
    ensures Offset2(b, l) + j < |Flatten2(b)|
    ensures Flatten2(b)[Offset2(b, l) + j] == b[l][j]
  {
    var n := |b| - 1;
    assert b[..n + 1] == b;
    if l < n {
      assert b[..n][..l] == b[..l];
      Flatten2Index(b[..n], l, j);
    } else {
      assert b[..l] == b[..n];
    }
  }

  /** Overwriting one entry of a matrix overwrites one entry of its flattening. */
  lemma {:induction false} Flatten2Update(b: seq<seq<real>>, l: nat, j: nat, v: real)
    requires l < |b| && j < |b[l]|
    ensures Offset2(b, l) + j < |Flatten2(b)|
    ensures Flatten2(b[l := b[l][j := v]]) == Flatten2(b)[Offset2(b, l) + j := v]
  {
    Flatten2Index(b, l, j);
    var n := |b| - 1;
    var b' := b[l := b[l][j := v]];
    assert b'[..n] == if l < n then b[..n][l := b[l][j := v]] else b[..n];
    if l < n {
      assert b[..n][..l] == b[..l];
      Flatten2Update(b[..n], l, j, v);
    } else {
      assert b[..l] == b[..n];
    }
  }

  /** Where matrix `l` of `w` starts in `Flatten3(w)`. */
  function Offset3(w: seq<seq<seq<real>>>, l: nat): nat
    requires l <= |w|
  {
    |Flatten3(w[..l])|
  }

  lemma {:induction false} Flatten3Update(w: seq<seq<seq<real>>>, l: nat, j: nat, k: nat, v: real)
    requires l < |w| && j < |w[l]| && k < |w[l][j]|
    ensures Offset3(w, l) + Offset2(w[l], j) + k < |Flatten3(w)|
    ensures Flatten3(w[l := w[l][j := w[l][j][k := v]]])
         == Flatten3(w)[Offset3(w, l) + Offset2(w[l], j) + k := v]
  {
    Flatten2Update(w[l], j, k, v);
    var n := |w| - 1;
    var w' := w[l := w[l][j := w[l][j][k := v]]];
    var head := Flatten3(w[..n]);
    assert Flatten3(w) == head + Flatten2(w[n]);
    assert Flatten3(w') == Flatten3(w'[..n]) + Flatten2(w'[n]);
    if l < n {
      assert w'[..n] == w[..n][l := w[l][j := w[l][j][k := v]]];
      assert w[..n][..l] == w[..l];
      Flatten3Update(w[..n], l, j, k, v);
      UpdateConcat(head, Flatten2(w[n]), Offset3(w, l) + Offset2(w[l], j) + k, v);
    } else {
      assert w'[..n] == w[..n];
      assert w[..l] == w[..n];
      UpdateConcat(head, Flatten2(w[n]), Offset3(w, l) + Offset2(w[l], j) + k, v);
    }
  }

  /** Overwriting one entry of a concatenation overwrites it in the part that holds it. */
  lemma UpdateConcat(x: seq<real>, y: seq<real>, i: nat, v: real)
    requires i < |x| + |y|
    ensures i < |x| ==> (x + y)[i := v] == x[i := v] + y
    ensures |x| <= i ==> (x + y)[i := v] == x + y[i - |x| := v]
  {
  }

  /** The next row starts where the previous one ends. */
  lemma Offset2Next(b: seq<seq<real>>, l: nat)
    requires l < |b|
    ensures Offset2(b, l + 1) == Offset2(b, l) + |b[l]|
  {
    assert b[..l + 1] == b[..l] + [b[l]];
    Flatten2Append(b[..l], b[l]);
  }

  lemma Offset3Next(w: seq<seq<seq<real>>>, l: nat)
    requires l < |w|
    ensures Offset3(w, l + 1) == Offset3(w, l) + |Flatten2(w[l])|
  {
    assert w[..l + 1] == w[..l] + [w[l]];
    Flatten3Append(w[..l], w[l]);
  }

  lemma Offset2Full(b: seq<seq<real>>)
    ensures Offset2(b, |b|) == |Flatten2(b)|
  {
    assert b[..|b|] == b;
  }

  lemma Offset3Full(w: seq<seq<seq<real>>>)
    ensures Offset3(w, |w|) == |Flatten3(w)|
  {
    assert w[..|w|] == w;
  }

  /** An offset never passes the end of the flattening. */
  lemma {:induction false} Offset2AtMost(b: seq<seq<real>>, l: nat)
    requires l <= |b|
    ensures Offset2(b, l) <= |Flatten2(b)|
    decreases |b| - l
  {
    if l == |b| {
      Offset2Full(b);
    } else {
      Offset2Next(b, l);
      Offset2AtMost(b, l + 1);
    }
  }

  /** A row that ends past `n` values ends its matrix past them too. */
  lemma RowCutShort(w: seq<seq<seq<real>>>, l: nat, j: nat)
    requires l < |w| && j <= |w[l]|
    ensures Offset3(w, l) + Offset2(w[l], j) <= Offset3(w, l + 1)
  {
    Offset2AtMost(w[l], j);
    Offset3Next(w, l);
  }

  /** Equally shaped matrices have their rows at the same offsets. */
  lemma Offset2SameRows(a: seq<seq<real>>, b: seq<seq<real>>, l: nat)
    requires SameRows(a, b) && l <= |a|
    ensures Offset2(a, l) == Offset2(b, l)
  {
    Flatten2SameLength(a[..l], b[..l]);
  }

  lemma Offset3SameRows(a: seq<seq<seq<real>>>, b: seq<seq<seq<real>>>, l: nat)
    requires SameRows3(a, b) && l <= |a|
    ensures Offset3(a, l) == Offset3(b, l)
  {
    Flatten3SameLength(a[..l], b[..l]);
  }

  /**
   * The first `n` entries of `src` written over `prior` (a reader that has
   * consumed `n` values of a file).
   */
  function Written(prior: seq<real>, src: seq<real>, n: nat): (r: seq<real>)
    requires n <= |prior| && n <= |src|
    ensures |r| == |prior|
    ensures forall i :: 0 <= i < |r| ==> r[i] == if i < n then src[i] else prior[i]
  {
    src[..n] + prior[n..]
  }

  lemma WrittenStep(prior: seq<real>, src: seq<real>, n: nat)
    requires n < |prior| && n < |src|
    ensures Written(prior, src, n)[n := src[n]] == Written(prior, src, n + 1)
  {
  }

  /** All of `src` written over `prior`, as far as either reaches. */
  function Overlay(prior: seq<real>, src: seq<real>): (r: seq<real>)
    ensures |r| == |prior|
    ensures |prior| <= |src| ==> r == src[..|prior|]
    ensures |src| < |prior| ==> r == src + prior[|src|..]
  {
    if |prior| <= |src| then Written(prior, src, |prior|) else Written(prior, src, |src|)
  }

  /** Overlaying a concatenation: the second part sees what the first part did not consume. */
  lemma OverlayConcat(a: seq<real>, b: seq<real>, src: seq<real>)
    ensures |a| <= |src| ==> Overlay(a + b, src) == src[..|a|] + Overlay(b, src[|a|..])
    ensures |src| < |a| ==> Overlay(a + b, src) == Overlay(a, src) + b
  {
    var n := |a|;
    if n <= |src| {
      var rest := src[n..];
      if n + |b| <= |src| {
        assert rest[..|b|] == src[n..n + |b|];
        assert src[..n + |b|] == src[..n] + src[n..n + |b|];
      } else {
        assert (a + b)[|src|..] == b[|rest|..];
        assert src == src[..n] + rest;
      }
    } else {
      assert (a + b)[|src|..] == a[|src|..] + b;
    }
  }

  /** Overlaying onto `prior` a source that covers it replaces it entirely. */
  lemma OverlayCovering(prior: seq<real>, data: seq<real>, extra: seq<real>)
    requires |data| == |prior|
    ensures Overlay(prior, data + extra) == data
  {
    assert (data + extra)[..|prior|] == data;
  }

  /** The number of biases a layer definition calls for: every non-input layer's size. */
  function BiasCount(layers: seq<nat>): nat
  {
    if |layers| <= 1 then 0 else BiasCount(layers[..|layers| - 1]) + layers[|layers| - 1]
  }

  /** The number of weights: the product of each pair of adjacent layer sizes. */
  function WeightCount(layers: seq<nat>): nat
  {
    if |layers| <= 1 then 0
    else WeightCount(layers[..|layers| - 1]) + layers[|layers| - 2] * layers[|layers| - 1]
  }

  lemma {:induction false} BiasCountIsFlatLength(layers: seq<nat>, b: seq<seq<real>>)
    requires BiasShape(layers, b)
    ensures |Flatten2(b)| == BiasCount(layers)
  {
    if b != [] {
      var n := |b| - 1;
      assert BiasShape(layers[..|layers| - 1], b[..n]);
      BiasCountIsFlatLength(layers[..|layers| - 1], b[..n]);
    }
  }

  lemma {:induction false} RowsOfEqualLength(m: seq<seq<real>>, width: nat)
    requires forall j :: 0 <= j < |m| ==> |m[j]| == width
    ensures |Flatten2(m)| == width * |m|
  {
    if m != [] {
      var n := |m| - 1;
      RowsOfEqualLength(m[..n], width);
      assert m[..n] + [m[n]] == m;
      Flatten2Append(m[..n], m[n]);
      assert width * |m| == width * n + width;
    }
  }

  lemma {:induction false} WeightCountIsFlatLength(layers: seq<nat>, w: seq<seq<seq<real>>>)
    requires WeightShape(layers, w)
    ensures |Flatten3(w)| == WeightCount(layers)
  {
    if w != [] {
      var n := |w| - 1;
      var front := layers[..|layers| - 1];
      assert WeightShape(front, w[..n]) by {
        forall l | 0 <= l < n
          ensures |w[..n][l]| == front[l + 1] && forall j :: 0 <= j < |w[..n][l]| ==> |w[..n][l][j]| == front[l]
        {
          assert w[..n][l] == w[l];
        }
      }
      WeightCountIsFlatLength(front, w[..n]);
      assert forall j :: 0 <= j < |w[n]| ==> |w[n][j]| == layers[n];
      RowsOfEqualLength(w[n], layers[n]);
      assert w[..n] + [w[n]] == w;
      Flatten3Append(w[..n], w[n]);
      assert |w[n]| == layers[n + 1];
      assert WeightCount(layers) == WeightCount(front) + layers[n] * layers[n + 1];
    }
  }

  /** Reading the next value of `src` into entry (l, j) of a matrix read so far. */
  lemma ReadNext2(b: seq<seq<real>>, b0: seq<seq<real>>, f0: seq<real>, src: seq<real>, index: nat, l: nat, j: nat)
    requires SameRows(b, b0) && f0 == Flatten2(b0) && l < |b| && j < |b[l]|
    requires index == Offset2(b0, l) + j && index < |src| && index <= |f0|
    requires Flatten2(b) == Written(f0, src, index)
    ensures index < |f0|
    ensures Flatten2(b[l := b[l][j := src[index]]]) == Written(f0, src, index + 1)
  {
    Flatten2Index(b0, l, j);
    Flatten2Update(b, l, j, src[index]);
    Offset2SameRows(b, b0, l);
    WrittenStep(f0, src, index);
  }

  /** Reading the next value of `src` into entry (l, j, k) of a tensor read so far. */
  lemma ReadNext3(w: seq<seq<seq<real>>>, w0: seq<seq<seq<real>>>, f0: seq<real>, src: seq<real>,
                  index: nat, l: nat, j: nat, k: nat)
    requires SameRows3(w, w0) && f0 == Flatten3(w0) && l < |w| && j < |w[l]| && k < |w[l][j]|
    requires index == Offset3(w0, l) + Offset2(w0[l], j) + k && index < |src| && index <= |f0|
    requires Flatten3(w) == Written(f0, src, index)
    ensures index < |f0|
    ensures Flatten3(w[l := w[l][j := w[l][j][k := src[index]]]]) == Written(f0, src, index + 1)
  {
    Flatten3Update(w0, l, j, k, 0.0);
    Flatten3Update(w, l, j, k, src[index]);
    Offset3SameRows(w, w0, l);
    Offset2SameRows(w[l], w0[l], j);
    WrittenStep(f0, src, index);
  }
}
