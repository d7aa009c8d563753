/**
 * Numeric conventions of the C# program, stated over Dafny's unbounded
 * `int` and exact `real`.
 *
 * Floating-point values are modelled as reals. The mathematical library
 * functions the program calls (Math.Sqrt, Math.Exp, Math.Tanh, Math.Atan2,
 * Math.Sin, Math.Cos) are not given definitions: they travel as the fields of
 * a `Transcendentals` value, and `ValidTranscendentals` lists the only facts
 * the model relies on.
 */
module Numerics {

  /** The library functions used by the program, left uninterpreted. */
  datatype Transcendentals = Transcendentals(
    sqrt: real -> real,
    exp: real -> real,
    tanh: real -> real,
    atan2: (real, real) -> real,
    sin: real -> real,
    cos: real -> real)

  /** `sqrt` is the non-negative square root on non-negative arguments. */
  ghost predicate IsSqrt(sqrt: real -> real)
  {
    forall x :: 0.0 <= x ==> 0.0 <= sqrt(x) && Sq(sqrt(x)) == x
  }

  /** `exp` is positive everywhere (so `1 + exp(x)` is never zero). */
  ghost predicate IsPositive(f: real -> real)
  {
    forall x :: 0.0 < f(x)
  }

  ghost predicate ValidTranscendentals(t: Transcendentals)
  {
    IsSqrt(t.sqrt) && IsPositive(t.exp)
  }

  /*
   * The library functions applied. Methods call them through these
   * functions, so that a call reads no state.
   */

  /** Math.Sqrt(x). */
  function Sqrt(tr: Transcendentals, x: real): real { tr.sqrt(x) }

  /** Math.Exp(x). */
  function Exp(tr: Transcendentals, x: real): real { tr.exp(x) }

  /** Math.Tanh(x). */
  function Tanh(tr: Transcendentals, x: real): real { tr.tanh(x) }

  /** Math.Atan2(y, x). */
  function Atan2(tr: Transcendentals, y: real, x: real): real { tr.atan2(y, x) }

  /** Math.Sin(a). */
  function Sin(tr: Transcendentals, a: real): real { tr.sin(a) }

  /** Math.Cos(a). */
  function Cos(tr: Transcendentals, a: real): real { tr.cos(a) }

  /** Math.PI. */
  const Pi: real := 3.141592653589793

  /** The C# cast `(int)x` of a floating-point value: truncation toward zero. */
  function Trunc(x: real): (r: int)
    ensures (r as real) <= x < (r as real) + 1.0 || (r as real) - 1.0 < x <= (r as real)
    ensures 0.0 <= x ==> 0 <= r
    ensures x <= 0.0 ==> r <= 0
  {
    if 0.0 <= x then x.Floor else -((-x).Floor)
  }

  /** C# integer division `a / b`: the quotient is truncated toward zero. */
  function CsDiv(a: int, b: int): (q: int)
    requires b != 0
    ensures 0 <= a && 0 < b ==> q == a / b
  {
    if (0 <= a) == (0 < b) then Abs(a) / Abs(b) else -(Abs(a) / Abs(b))
  }

  function Abs(x: int): nat { if x < 0 then -x else x }

  /** Math.Min on two ints. */
  function MinInt(a: int, b: int): (r: int)
    ensures r <= a && r <= b && (r == a || r == b)
  {
    if a < b then a else b
  }

  function AbsReal(x: real): (r: real)
    ensures 0.0 <= r && (r == x || r == -x)
  {
    if x < 0.0 then -x else x
  }

  /** Math.Max on doubles (no NaN in the model). */
  function MaxReal(a: real, b: real): (r: real)
    ensures a <= r && b <= r && (r == a || r == b)
  {
    if a < b then b else a
  }

  /** Math.Sign: -1, 0 or 1. */
  function Sign(x: real): (r: int)
    ensures r == -1 || r == 0 || r == 1
    ensures (r == 1 <==> 0.0 < x) && (r == -1 <==> x < 0.0)
  {
    if 0.0 < x then 1 else if x < 0.0 then -1 else 0
  }

  /** The C# floating-point remainder `a % b`: it takes the sign of `a`. */
  function CsRem(a: real, b: real): (r: real)
    requires b != 0.0
    ensures 0.0 <= a ==> 0.0 <= r
  {
    a - b * (Trunc(a / b) as real)
  }

  /** Math.Round(x) with its default midpoint rule: ties go to the even neighbour. */
  function RoundHalfEven(x: real): (r: int)
    ensures x - 0.5 <= r as real <= x + 0.5
  {
    var f := x.Floor;
    var frac := x - f as real;
    if frac < 0.5 then f
    else if 0.5 < frac then f + 1
    else if f % 2 == 0 then f else f + 1
  }

  /** The range of `int` in C#. */
  const IntMin: int := -0x8000_0000
  const IntMax: int := 0x7FFF_FFFF

  /** Unchecked 32-bit two's-complement arithmetic: the result wraps into [IntMin, IntMax]. */
  function Wrap32(x: int): (r: int)
    ensures IntMin <= r <= IntMax
    ensures IntMin <= x <= IntMax ==> r == x
    ensures (x - r) % 0x1_0000_0000 == 0
  {
    (x - IntMin) % 0x1_0000_0000 + IntMin
  }

  /*
   * Facts about products of reals. The solver does not derive them unaided
   * when a product has the same factor twice, so they are stated once here
   * over distinct variables and instantiated where needed.
   */

  lemma MulStrict(a: real, b: real, c: real, d: real)
    requires 0.0 <= a < b && 0.0 <= c < d
    ensures a * c < b * d
  {
    assert a * c <= b * c;
    assert b * c < b * d;
  }

  lemma MulMonotone(a: real, b: real, c: real)
    requires a <= b && 0.0 <= c
    ensures a * c <= b * c
  {
  }

  lemma SquarePositive(x: real)
    requires x != 0.0
    ensures 0.0 < Sq(x)
  {
    if 0.0 < x {
      MulStrict(0.0, x, 0.0, x);
    } else {
      MulStrict(0.0, -x, 0.0, -x);
      assert (-x) * (-x) == x * x;
    }
  }

  lemma SquareNonNegative(x: real)
    ensures 0.0 <= Sq(x)
  {
    if x != 0.0 {
      SquarePositive(x);
    }
  }

  /** The square of a real, as a function so that callers reason about it as one term. */
  function Sq(x: real): real { x * x }

  lemma SumOfSquaresPositive(a: real, b: real)
    requires a != 0.0 || b != 0.0
    ensures 0.0 < Sq(a) + Sq(b)
  {
    SquareNonNegative(a);
    SquareNonNegative(b);
    if a != 0.0 {
      SquarePositive(a);
    } else {
      SquarePositive(b);
    }
  }

  /** A non-negative number has only one non-negative square root. */
  lemma RootUnique(s: real, m: real)
    requires 0.0 <= s && 0.0 <= m && Sq(s) == Sq(m)
    ensures s == m
  {
    if s < m {
      MulStrict(s, m, s, m);
    } else if m < s {
      MulStrict(m, s, m, s);
    }
  }

  lemma SqrtOfSquare(sqrt: real -> real, m: real)
    requires IsSqrt(sqrt) && 0.0 <= m
    ensures sqrt(Sq(m)) == m
  {
    SquareNonNegative(m);
    RootUnique(sqrt(Sq(m)), m);
  }

  lemma QuotientBounds(a: real, d: real)
    requires 0.0 < d && -d < a < d
    ensures -1.0 < a / d < 1.0
  {
    var q := a / d;
    assert q * d == a;
    if 1.0 <= q {
      MulMonotone(1.0, q, d);
    }
    if q <= -1.0 {
      MulMonotone(q, -1.0, d);
    }
  }

  lemma QuotientSign(a: real, d: real)
    requires 0.0 < d
    ensures a < 0.0 ==> a / d < 0.0
    ensures 0.0 < a ==> 0.0 < a / d
    ensures a == 0.0 ==> a / d == 0.0
  {
    var q := a / d;
    assert q * d == a;
    if q < 0.0 {
      MulMonotone(q, 0.0, d);
    }
    if 0.0 < q {
      MulMonotone(0.0, q, d);
    }
  }

  lemma ReciprocalAntitone(p: real, q: real)
    requires 0.0 < p <= q
    ensures 1.0 / q <= 1.0 / p
  {
    var rp, rq := 1.0 / p, 1.0 / q;
    assert rp * p == 1.0;
    assert rq * q == 1.0;
    QuotientSign(1.0, q);
    MulMonotone(p, q, rq);
    if rp < rq {
      MulMonotone(rp, rq, p);
    }
  }

  lemma SquareMonotone(a: real, b: real)
    requires 0.0 <= a <= b
    ensures Sq(a) <= Sq(b)
  {
    MulMonotone(a, b, a);
    MulMonotone(a, b, b);
  }

  lemma SqNeg(x: real)
    ensures Sq(-x) == Sq(x)
  {
  }

  lemma SquareAtMostOne(x: real)
    requires -1.0 <= x <= 1.0
    ensures Sq(x) <= 1.0
  {
    if 0.0 <= x {
      SquareMonotone(x, 1.0);
    } else {
      SquareMonotone(-x, 1.0);
      SqNeg(x);
    }
  }

  /** A quotient by a positive divisor of a value between `d * lo` and `d * hi` lies between `lo` and `hi`. */
  lemma QuotientWithin(a: real, d: real, lo: real, hi: real)
    requires 0.0 < d && d * lo <= a <= d * hi
    ensures lo <= a / d <= hi
  {
    var q := a / d;
    assert q * d == a;
    if q < lo {
      MulStrict(0.0, lo - q, 0.0, d);
    }
    if hi < q {
      MulStrict(0.0, q - hi, 0.0, d);
    }
  }

  /**
   * A product, as a function: sums that grow by one term per step are
   * bounded by `Times(n, a)` without the solver unfolding the product.
   */
  function Times(k: real, a: real): real { k * a }

  lemma TimesSucc(m: real, a: real)
    ensures Times(m + 1.0, a) == Times(m, a) + a
  {
  }

  /** QuotientWithin, with the bounds written as Times. */
  lemma QuotientWithinTimes(a: real, d: real, lo: real, hi: real)
    requires 0.0 < d && Times(d, lo) <= a <= Times(d, hi)
    ensures lo <= a / d <= hi
  {
    QuotientWithin(a, d, lo, hi);
  }

  /** `(m + 1) * a` is `m * a + a`. */
  lemma MulSucc(m: real, a: real)
    ensures (m + 1.0) * a == m * a + a
  {
  }

  /** Comparing two quotients with positive divisors by cross-multiplying. */
  lemma QuotientOrder(a: real, c: real, b: real, d: real)
    requires 0.0 < c && 0.0 < d && a * d <= b * c
    ensures a / c <= b / d
  {
    var p, q := a / c, b / d;
    assert p * c == a;
    assert q * d == b;
    var cd := c * d;
    assert 0.0 < cd;
    assert a * d == p * cd;
    assert b * c == q * cd;
  }

  lemma MulMonotoneInt(a: int, b: int, c: int)
    requires a <= b && 0 <= c
    ensures a * c <= b * c
  {
  }

  /** Floor division of a non-negative sum by a count stays within the bounds it was scaled by. */
  lemma FloorDivBounds(a: int, b: int, lo: int, up: int)
    requires 0 <= a && 0 < b && lo * b <= a <= up * b
    ensures lo <= a / b <= up
  {
    var q := a / b;
    assert a == b * q + a % b;
    if q < lo {
      MulMonotoneInt(q + 1, lo, b);
    }
    if up < q {
      MulMonotoneInt(up + 1, q, b);
    }
  }

  /** The same for C# division, which truncates toward zero. */
  lemma CsDivBounds(a: int, b: int, lo: int, up: int)
    requires 0 < b && lo * b <= a <= up * b
    ensures lo <= CsDiv(a, b) <= up
  {
    if 0 <= a {
      FloorDivBounds(a, b, lo, up);
    } else {
      assert (-up) * b <= -a <= (-lo) * b;
      FloorDivBounds(-a, b, -up, -lo);
    }
  }
}
