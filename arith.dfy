/** Real-number helpers shared by the force law and the torus geometry:
    Python's `abs`, and what the model assumes of `math.sqrt`. */
module Arith {

  /** Python's `abs` on a real. */
  function Abs(x: real): (a: real)
    ensures 0.0 <= a && (a == x || a == -x)
  {
    if x < 0.0 then -x else x
  }

  /** The model does not compute square roots: `math.sqrt` is passed in as a
      function, and a lemma that needs it to be a square root says so with
      this predicate. */
  ghost predicate IsSqrt(sqrt: real -> real)
  {
    forall x: real :: 0.0 <= x ==> 0.0 <= sqrt(x) && sqrt(x) * sqrt(x) == x
  }

  lemma MulNonneg(a: real, b: real)
    requires 0.0 <= a && 0.0 <= b
    ensures 0.0 <= a * b
  {
  }

  lemma MulPos(a: real, b: real)
    requires 0.0 < a && 0.0 < b
    ensures 0.0 < a * b
  {
  }

  lemma DivSelf(x: real)
    requires x != 0.0
    ensures x / x == 1.0
    ensures (-x) / x == -1.0
  {
  }

  lemma MulDiv(k: real, size: real)
    requires size != 0.0
    ensures (size * k) / size == k
  {
  }

  /** Squaring is monotone on non-negative numbers; the squares are passed
      in by name. */
  lemma SquareMonotone(a: real, b: real, aa: real, bb: real)
    requires 0.0 <= a <= b && aa == a * a && bb == b * b
    ensures aa <= bb
    ensures a < b ==> aa < bb
  {
    MulNonneg(b - a, b + a);
    assert (b - a) * (b + a) == b * b - a * a;
    if a < b {
      MulPos(b - a, b + a);
    }
  }

  /** A number in `[-1, 1]` has its square in `[0, 1]`. */
  lemma SquareAtMostOne(f: real, ff: real)
    requires -1.0 <= f <= 1.0 && ff == f * f
    ensures 0.0 <= ff <= 1.0
  {
    if 0.0 <= f {
      SquareMonotone(0.0, f, 0.0, ff);
      SquareMonotone(f, 1.0, ff, 1.0);
    } else {
      assert ff == (-f) * (-f);
      SquareMonotone(0.0, -f, 0.0, ff);
      SquareMonotone(-f, 1.0, ff, 1.0);
    }
  }

  /** A number whose square is at most 1 lies in `[-1, 1]`. */
  lemma RootAtMostOne(x: real, xx: real)
    requires xx == x * x && xx <= 1.0
    ensures Abs(x) <= 1.0
  {
  }

  lemma DivPos(x: real, w: real)
    requires 0.0 < w && 0.0 < x
    ensures 0.0 < x / w
  {
  }

  lemma DivSub(a: real, b: real, w: real)
    requires w != 0.0
    ensures a / w - b / w == (a - b) / w
  {
  }

  /** Dividing by a positive number is monotone. */
  lemma DivLe(x: real, y: real, w: real)
    requires 0.0 < w && x <= y
    ensures x / w <= y / w
  {
    DivSub(y, x, w);
    assert 0.0 <= (y - x) / w;
  }

  lemma AbsDiv(x: real, w: real)
    requires 0.0 < w
    ensures Abs(x / w) == Abs(x) / w
  {
    if x < 0.0 {
      DivSub(0.0, x, w);
    }
  }

  lemma AbsReverseTriangle(p: real, q: real)
    ensures Abs(Abs(p) - Abs(q)) <= Abs(p - q)
  {
  }

  lemma AbsMul(a: real, b: real)
    ensures Abs(a * b) == Abs(a) * Abs(b)
  {
    if a < 0.0 && b < 0.0 {
      assert a * b == (-a) * (-b);
      MulPos(-a, -b);
    } else if a < 0.0 {
      MulNonneg(-a, b);
      assert a * b == -((-a) * b);
    } else if b < 0.0 {
      MulNonneg(a, -b);
      assert a * b == -(a * (-b));
    } else {
      MulNonneg(a, b);
    }
  }

  /** Multiplying by a non-negative number is monotone. */
  lemma MulLeLeft(c: real, x: real, y: real)
    requires 0.0 <= c && x <= y
    ensures c * x <= c * y
  {
    MulNonneg(c, y - x);
    assert c * (y - x) == c * y - c * x;
  }

  /** A non-negative quotient of a smaller by a larger number lies in `[0, 1)`. */
  lemma DivBelowOne(e: real, w: real)
    requires 0.0 <= e < w
    ensures 0.0 <= e / w < 1.0
  {
    DivLe(0.0, e, w);
    DivSub(w, e, w);
    DivSelf(w);
    DivPos(w - e, w);
  }

  /** Scaling two numbers by `f` scales a bound on their difference by `|f|`. */
  lemma ScaledDiff(f: real, t1: real, t2: real, bound: real)
    requires Abs(t2 - t1) <= bound
    ensures Abs(f * t2 - f * t1) <= Abs(f) * bound
  {
    assert f * t2 - f * t1 == f * (t2 - t1);
    AbsMul(f, t2 - t1);
    MulLeLeft(Abs(f), Abs(t2 - t1), bound);
  }

  lemma Rearrange(a: real, x: real, w: real)
    requires w != 0.0
    ensures a * (2.0 * x / w) == 2.0 * a / w * x
  {
  }


  /** Each of two non-negative scales applied to `x >= 0` is below their sum
      `l` applied to `x`. */
  lemma SumScales(a: real, b: real, l: real, x: real)
    requires 0.0 <= a && 0.0 <= b && 0.0 <= x && l == a + b
    ensures a * x <= l * x
    ensures b * x <= l * x
  {
    MulNonneg(a, x);
    MulNonneg(b, x);
    assert l * x == a * x + b * x;
  }
}
