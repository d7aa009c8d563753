/**
 * The activation functions a network layer can use, and their derivatives
 * (AI/NeuralNetwork.cs, the ActivationFunctions enum and the
 * "ACTIVATION / DERIVATIVE FUNCTIONS" region).
 */
module Activation {
  import opened Numerics

  /** The ActivationFunctions enum, in declaration order. */
  datatype ActivationKind = Sigmoid | TanH | ReLU | LeakyReLU | BinaryStep | SoftSign | Selu | Identity

  /*
   * The constants appear as literals: LeakyReLU's slope below zero is the
   * float constant `alpha` (0.01), and SeLU's `alpha` and `scale` are the
   * two long literals below. Written out, they keep every product with
   * them linear for the solver.
   */

  /** The SeLU pre-scaling value `fx`, shared by SeLU and its derivative. */
  function SeluInner(tr: Transcendentals, x: real): real
  {
    if x > 0.0 then x else 1.6732632423543772848170429916717 * Exp(tr, x) - 1.6732632423543772848170429916717
  }

  /** The activation function selected by GetActivationFunctions, applied to `x`. */
  function Activate(kind: ActivationKind, tr: Transcendentals, x: real): (y: real)
    requires IsPositive(tr.exp)
    ensures kind == Sigmoid ==> 0.0 < y < 1.0
    ensures kind == TanH ==> y == Tanh(tr, x)
    ensures kind == ReLU ==> 0.0 <= y && x <= y && (y == x || y == 0.0)
    ensures kind == LeakyReLU ==> (0.0 <= x ==> y == x) && (x < 0.0 ==> y == 0.01 * x)
    ensures kind == BinaryStep ==> (y == 1.0 <==> 0.0 <= x) && (y == 0.0 <==> x < 0.0)
    ensures kind == SoftSign ==> -1.0 < y < 1.0 && Sign(y) == Sign(x)
    ensures kind == Selu ==> (0.0 < x ==> y == 1.0507009873554804934193349852946 * x) && -1.6732632423543772848170429916717 * 1.0507009873554804934193349852946 < y
    ensures kind == Identity ==> y == x
  {
    match kind
    case Sigmoid =>
      var k := Exp(tr, x);
      assert 0.0 < k;
      QuotientBounds(k, 1.0 + k);
      QuotientSign(k, 1.0 + k);
      k / (1.0 + k)
    case TanH => Tanh(tr, x)
    case ReLU => if x > 0.0 then x else 0.0
    case LeakyReLU => MaxReal(0.01 * x, x)
    case BinaryStep => if x >= 0.0 then 1.0 else 0.0
    case SoftSign =>
      var d := 1.0 + AbsReal(x);
      QuotientBounds(x, d);
      QuotientSign(x, d);
      SoftSignValue(x)
    case Selu =>
      assert 0.0 < Exp(tr, x);
      SeluInner(tr, x) * 1.0507009873554804934193349852946
    case Identity => x
  }

  /**
   * The kinds whose activation is shown here never to decrease as its
   * argument grows. Sigmoid, TanH and SELU are left out: they go through
   * the exponential and hyperbolic tangent, which the model takes as given
   * values without assuming them monotone.
   */
  predicate IsMonotoneKind(kind: ActivationKind)
  {
    kind == ReLU || kind == LeakyReLU || kind == BinaryStep || kind == SoftSign || kind == Identity
  }

  /** SoftSign's value `x / (1 + |x|)`. */
  function SoftSignValue(x: real): real
  {
    x / (1.0 + AbsReal(x))
  }

  /** SoftSign is non-decreasing. */
  lemma SoftSignMonotone(a: real, b: real)
    requires a <= b
    ensures SoftSignValue(a) <= SoftSignValue(b)
  {
    if 0.0 <= a {
      QuotientOrder(a, 1.0 + a, b, 1.0 + b);
    } else if b < 0.0 {
      QuotientOrder(a, 1.0 - a, b, 1.0 - b);
    } else {
      QuotientSign(a, 1.0 - a);
      QuotientSign(b, 1.0 + b);
    }
  }

  /** ReLU, LeakyReLU, BinaryStep, SoftSign and Identity preserve the order of their arguments. */
  lemma ActivateMonotone(kind: ActivationKind, tr: Transcendentals, a: real, b: real)
    requires IsPositive(tr.exp) && IsMonotoneKind(kind) && a <= b
    ensures Activate(kind, tr, a) <= Activate(kind, tr, b)
  {
    if kind == SoftSign {
      SoftSignMonotone(a, b);
    }
  }

  /**
   * The derivative selected by GetActivationFunctions. Like the source, the
   * sigmoid and tanh derivatives take the activation's OUTPUT, the others
   * its input.
   */
  function Derivative(kind: ActivationKind, tr: Transcendentals, v: real): (r: real)
    requires IsPositive(tr.exp)
    ensures kind == Sigmoid && (v == 0.0 || v == 1.0) ==> r == 0.0
    ensures kind == TanH && -1.0 <= v <= 1.0 ==> 0.0 <= r <= 1.0
    ensures kind == ReLU ==> (r == 1.0 <==> 0.0 < v) && (r == 0.0 <==> v <= 0.0)
    ensures kind == LeakyReLU ==> (r == 1.0 <==> 0.0 < v) && (v <= 0.0 ==> r == 0.01)
    ensures kind == BinaryStep ==> r == 0.0
    ensures kind == SoftSign ==> 0.0 < r <= 1.0
    ensures kind == Selu ==> 0.0 < r && (0.0 < v ==> r == 1.0507009873554804934193349852946)
    ensures kind == Identity ==> r == 1.0
  {
    match kind
    case Sigmoid =>
      v * (1.0 - v)
    case TanH =>
      SquareNonNegative(v);
      if -1.0 <= v <= 1.0 then
        SquareAtMostOne(v);
        1.0 - Sq(v)
      else
        1.0 - Sq(v)
    case ReLU => if v > 0.0 then 1.0 else 0.0
    case LeakyReLU => if v > 0.0 then 1.0 else 0.01
    case BinaryStep => if v != 0.0 then 0.0 else 0.0
    case SoftSign =>
      var d := 1.0 + AbsReal(v);
      SquareMonotone(1.0, d);
      assert Sq(1.0) == 1.0;
      ReciprocalAntitone(1.0, Sq(d));
      QuotientSign(1.0, Sq(d));
      1.0 / Sq(d)
    case Selu =>
      var fx := SeluInner(tr, v);
      assert 0.0 < Exp(tr, v);
      if v > 0.0 then 1.0507009873554804934193349852946 else (fx + 1.6732632423543772848170429916717) * 1.0507009873554804934193349852946
    case Identity => 1.0
  }
}
