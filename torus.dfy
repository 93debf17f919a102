/** The wrap-around geometry of simulation.py: positions are taken modulo the
    world size after every move (lines 103-104), and the displacement between
    two particles is shortened across the edge when it exceeds half the world
    (lines 82-87). */
module Torus {
  import opened Arith

  /** `x` is a whole number. */
  predicate IsWhole(x: real)
  {
    x == x.Floor as real
  }

  /** Python's `p % size` on reals, for a positive `size`: the representative
      of `p` in `[0, size)` that differs from `p` by a whole number of sizes. */
  function Wrap(p: real, size: real): (q: real)
    requires 0.0 < size
    ensures 0.0 <= q < size
    ensures IsWhole((p - q) / size)
  {
    var n := (p / size).Floor;
    FloorBounds(p, size);
    MultipleIsWhole(p - (p - size * (n as real)), size, n);
    p - size * (n as real)
  }

  lemma FloorBounds(p: real, size: real)
    requires 0.0 < size
    ensures 0.0 <= p - size * ((p / size).Floor as real) < size
  {
    var q := p / size;
    var k := q.Floor as real;
    assert q * size == p;
    MulPos(k + 1.0 - q, size);
    assert (k + 1.0 - q) * size == k * size + size - q * size;
    MulNonneg(q - k, size);
  }

  lemma MultipleIsWhole(a: real, size: real, n: int)
    requires 0.0 < size && a == (n as real) * size
    ensures IsWhole(a / size)
  {
    MulDiv(n as real, size);
    assert a / size == n as real;
  }

  /** `Wrap` leaves a coordinate that is already in `[0, size)` alone. */
  lemma WrapKeepsInside(p: real, size: real)
    requires 0.0 < size && 0.0 <= p < size
    ensures Wrap(p, size) == p
  {
    WrapIsUnique(p, size, p, 0);
  }

  /** Any representative of `p` in `[0, size)` that differs from it by a whole
      number of sizes is the one `Wrap` returns. */
  lemma WrapIsUnique(p: real, size: real, q: real, n: int)
    requires 0.0 < size && 0.0 <= q < size
    requires p == q + (n as real) * size
    ensures Wrap(p, size) == q
  {
    var w := Wrap(p, size);
    var m := ((p - w) / size).Floor;
    assert (p - w) / size * size == p - w;
    assert p == w + (m as real) * size;
    // q - w == (m - n) * size, and both q and w lie in [0, size)
    if m > n {
      MulNonneg((m - n - 1) as real, size);
      assert false;
    } else if m < n {
      MulNonneg((n - m - 1) as real, size);
      assert false;
    }
  }

  /** The per-axis displacement from `from` to `to` used by the force loop:
      when the direct difference is longer than half the world it is replaced
      by the path across the edge, `(|d| - size) * (d / |d|)`. */
  function Delta(from: real, to: real, size: real): real
    requires 0.0 < size
  {
    var d := to - from;
    if Abs(d) > size / 2.0 then (Abs(d) - size) * (d / Abs(d)) else d
  }

  /** For coordinates inside the world the displacement is at most half the
      world long and differs from the direct difference by at most one whole
      world size. */
  lemma DeltaWithinHalf(from: real, to: real, size: real)
    requires 0.0 < size
    requires 0.0 <= from < size && 0.0 <= to < size
    ensures Abs(Delta(from, to, size)) <= size / 2.0
    ensures Delta(from, to, size) - (to - from) in {-size, 0.0, size}
  {
    var d := to - from;
    if d > size / 2.0 {
      DivSelf(d);
    } else if d < -size / 2.0 {
      DivSelf(-d);
    }
  }

  /** The displacement is the shortest one: no other representative
      `to - from + n * size` of the difference is shorter. */
  lemma DeltaIsShortest(from: real, to: real, size: real, n: int)
    requires 0.0 < size
    requires 0.0 <= from < size && 0.0 <= to < size
    ensures Abs(Delta(from, to, size)) <= Abs(to - from + (n as real) * size)
  {
    DeltaWithinHalf(from, to, size);
    var e := Delta(from, to, size);
    var k: int := if e - (to - from) == size then 1 else if e - (to - from) == -size then -1 else 0;
    assert e == to - from + (k as real) * size;
    // to - from + n * size == e + (n - k) * size
    var j := n - k;
    assert to - from + (n as real) * size == e + (j as real) * size;
    var t := (j as real) * size;
    if j >= 1 {
      MulNonneg((j - 1) as real, size);
      assert t == ((j - 1) as real) * size + size;
      assert size <= t;
      assert size / 2.0 <= e + t;
    } else if j <= -1 {
      MulNonneg((-j - 1) as real, size);
      assert t == -(((-j - 1) as real) * size) - size;
      assert t <= -size;
      assert e + t <= -size / 2.0;
    } else {
      assert t == 0.0;
    }
  }

  /** Swapping the two coordinates negates the displacement. */
  lemma DeltaAntisymmetric(from: real, to: real, size: real)
    requires 0.0 < size
    ensures Delta(to, from, size) == -Delta(from, to, size)
  {
    var d := to - from;
    if d > size / 2.0 {
      DivSelf(d);
    } else if d < -size / 2.0 {
      DivSelf(-d);
    }
  }

  /** Two particles one unit inside opposite edges are 2 apart, across the
      edge, not `size - 2` apart. */
  lemma DeltaAcrossEdge(size: real)
    requires 4.0 < size
    ensures Delta(1.0, size - 1.0, size) == -2.0
    ensures Delta(size - 1.0, 1.0, size) == 2.0
  {
    DivSelf(size - 2.0);
  }
}
