/** One tick of `run_simulation` in simulation.py (lines 77-104) without the
    drawing: every particle's total force is summed from the positions at the
    start of the tick, friction and the force impulse update its velocity
    (phase 1), and only then is every position moved and wrapped (phase 2). */
module Simulation {
  import opened Arith
  import opened ForceLaw
  import opened Torus

  /** World size: `X = 1600 // 2` and `Y = 2560 // 2` (lines 62-63). */
  const SizeX: real := (1600 / 2) as real
  const SizeY: real := (2560 / 2) as real

  datatype Vec = Vec(x: real, y: real)
  {
    function Plus(o: Vec): Vec
    {
      Vec(x + o.x, y + o.y)
    }
  }

  const Zero: Vec := Vec(0.0, 0.0)

  function Dot(a: Vec, b: Vec): real
  {
    a.x * b.x + a.y * b.y
  }

  /** Squared length, `dx ** 2 + dy ** 2` of line 88. */
  function Norm2(a: Vec): real
  {
    Dot(a, a)
  }

  /** The run parameters `dt`, `r`, `friction_factor` and `beta`. */
  datatype Params = Params(dt: real, r: real, friction: real, beta: real)

  /** The interaction matrix `forces` is `num_types` by `num_types`. */
  predicate SquareMatrix(m: seq<seq<real>>)
  {
    forall a :: 0 <= a < |m| ==> |m[a]| == |m|
  }

  /** Every particle type indexes a row (and a column) of the matrix. */
  predicate TypesIn(ts: seq<int>, m: seq<seq<real>>)
  {
    forall k :: 0 <= k < |ts| ==> 0 <= ts[k] < |m|
  }

  /** Every matrix entry lies in `[-1, 1]`. */
  predicate UnitCoefficients(m: seq<seq<real>>)
    requires SquareMatrix(m)
  {
    forall a, b :: 0 <= a < |m| && 0 <= b < |m| ==> -1.0 <= m[a][b] <= 1.0
  }

  /** What the force loop reads: positions, types and the matrix. */
  predicate Layout(xs: seq<real>, ys: seq<real>, ts: seq<int>, m: seq<seq<real>>)
  {
    |ys| == |xs| && |ts| == |xs| && SquareMatrix(m) && TypesIn(ts, m)
  }

  /** Every position lies in `[0, X) x [0, Y)`. */
  predicate InWorld(xs: seq<real>, ys: seq<real>)
  {
    |ys| == |xs| &&
    forall k :: 0 <= k < |xs| ==> 0.0 <= xs[k] < SizeX && 0.0 <= ys[k] < SizeY
  }

  /** `(dx, dy)` of lines 82-87: the wrap-around displacement from particle
      `i` to particle `j`. */
  function Separation(xs: seq<real>, ys: seq<real>, i: nat, j: nat): Vec
    requires |ys| == |xs| && i < |xs| && j < |xs|
  {
    Vec(Delta(xs[i], xs[j], SizeX), Delta(ys[i], ys[j], SizeY))
  }

  /** What particle `j` adds to particle `i`'s total force (lines 81-92).
      `sqrt` stands for `math.sqrt`. */
  function PairForce(xs: seq<real>, ys: seq<real>, ts: seq<int>, m: seq<seq<real>>,
                     p: Params, sqrt: real -> real, i: nat, j: nat): Vec
    requires Layout(xs, ys, ts, m) && i < |xs| && j < |xs| && 0.0 < p.beta
  {
    if i == j then Zero
    else
      var s := Separation(xs, ys, i, j);
      var dist := sqrt(Norm2(s));
      if 0.0 < dist < p.r then
        var f := CalcForces(dist / p.r, m[ts[i]][ts[j]], p.beta);
        Vec(s.x / dist * f, s.y / dist * f)
      else
        Zero
  }

  /** `(tot_force_x, tot_force_y)` for particle `i` after the inner loop has
      visited particles `0 .. n-1`, summed in that order. */
  function TotalForce(xs: seq<real>, ys: seq<real>, ts: seq<int>, m: seq<seq<real>>,
                      p: Params, sqrt: real -> real, i: nat, n: nat): Vec
    requires Layout(xs, ys, ts, m) && i < |xs| && n <= |xs| && 0.0 < p.beta
    decreases n
  {
    if n == 0 then Zero
    else TotalForce(xs, ys, ts, m, p, sqrt, i, n - 1).Plus(PairForce(xs, ys, ts, m, p, sqrt, i, n - 1))
  }

  /** Lines 94-99: the force is scaled by `r * 100`, the velocity multiplied by
      the friction factor, and then the impulse (scaled force times `dt`) is
      added, in that order. */
  function Accelerate(v: real, f: real, p: Params): real
  {
    v * p.friction + f * (p.r * 100.0) * p.dt
  }

  /** Lines 103-104: move by `v * dt` and wrap modulo the world size. */
  function Move(pos: real, v: real, dt: real, size: real): real
    requires 0.0 < size
  {
    Wrap(pos + v * dt, size)
  }

  /** The whole particle state of a run: positions, velocities, types and the
      interaction matrix. */
  datatype World = World(xs: seq<real>, ys: seq<real>, vxs: seq<real>, vys: seq<real>,
                         ts: seq<int>, m: seq<seq<real>>)

  predicate Valid(w: World)
  {
    Layout(w.xs, w.ys, w.ts, w.m) && |w.vxs| == |w.xs| && |w.vys| == |w.xs|
  }

  /** The state drawn before the first tick (lines 67-72): whole-numbered
      positions in `[5, X-5] x [5, Y-5]`, velocities in `[0, 4)` and matrix
      entries in `[-1, 1)`. */
  predicate Initial(w: World)
  {
    Valid(w) &&
    (forall k :: 0 <= k < |w.xs| ==>
       IsWhole(w.xs[k]) && 5.0 <= w.xs[k] <= SizeX - 5.0 &&
       IsWhole(w.ys[k]) && 5.0 <= w.ys[k] <= SizeY - 5.0 &&
       0.0 <= w.vxs[k] < 4.0 && 0.0 <= w.vys[k] < 4.0) &&
    forall a, b :: 0 <= a < |w.m| && 0 <= b < |w.m| ==> -1.0 <= w.m[a][b] < 1.0
  }

  /** One tick as a function of the state at its start. Every velocity is
      computed from the old positions; every position moves by its new
      velocity. Count, types and matrix stay; positions end inside the world. */
  function Step(w: World, p: Params, sqrt: real -> real): (r: World)
    requires Valid(w) && 0.0 < p.beta
    ensures Valid(r) && |r.xs| == |w.xs| && r.ts == w.ts && r.m == w.m
    ensures InWorld(r.xs, r.ys)
  {
    var n := |w.xs|;
    var vxs := seq(n, k requires 0 <= k < n =>
                 Accelerate(w.vxs[k], TotalForce(w.xs, w.ys, w.ts, w.m, p, sqrt, k, n).x, p));
    var vys := seq(n, k requires 0 <= k < n =>
                 Accelerate(w.vys[k], TotalForce(w.xs, w.ys, w.ts, w.m, p, sqrt, k, n).y, p));
    var xs := seq(n, k requires 0 <= k < n => Move(w.xs[k], vxs[k], p.dt, SizeX));
    var ys := seq(n, k requires 0 <= k < n => Move(w.ys[k], vys[k], p.dt, SizeY));
    World(xs, ys, vxs, vys, w.ts, w.m)
  }

  /** `n` ticks of the `while True` loop. */
  function Run(w: World, p: Params, sqrt: real -> real, n: nat): (r: World)
    requires Valid(w) && 0.0 < p.beta
    ensures Valid(r) && |r.xs| == |w.xs| && r.ts == w.ts && r.m == w.m
    ensures 0 < n ==> InWorld(r.xs, r.ys)
    decreases n
  {
    if n == 0 then w else Step(Run(w, p, sqrt, n - 1), p, sqrt)
  }

  // ---------------------------------------------------------------------------
  // Properties of the specification

  /** The guard `0 < dist < r` on `dist = sqrt(d2)` is the guard
      `0 < d2 < r*r` on the squared distance. */
  lemma GuardBySquares(sqrt: real -> real, d2: real, r: real)
    requires IsSqrt(sqrt) && 0.0 <= d2 && 0.0 < r
    ensures 0.0 < sqrt(d2) < r <==> 0.0 < d2 < r * r
  {
    var s := sqrt(d2);
    assert 0.0 <= s && s * s == d2;
    SquareMonotone(0.0, s, 0.0, d2);
    if s <= r {
      SquareMonotone(s, r, d2, r * r);
    } else {
      SquareMonotone(r, s, r * r, d2);
    }
  }

  /** A pair adds nothing when it is the particle itself, when the two sit on
      the same spot, or when they are at least `r` apart. */
  lemma PairForceVanishes(xs: seq<real>, ys: seq<real>, ts: seq<int>, m: seq<seq<real>>,
                          p: Params, sqrt: real -> real, i: nat, j: nat)
    requires Layout(xs, ys, ts, m) && i < |xs| && j < |xs| && 0.0 < p.beta
    requires IsSqrt(sqrt) && 0.0 < p.r
    ensures i == j ==> PairForce(xs, ys, ts, m, p, sqrt, i, j) == Zero
    ensures Norm2(Separation(xs, ys, i, j)) == 0.0 ==> PairForce(xs, ys, ts, m, p, sqrt, i, j) == Zero
    ensures p.r * p.r <= Norm2(Separation(xs, ys, i, j)) ==> PairForce(xs, ys, ts, m, p, sqrt, i, j) == Zero
  {
    var s := Separation(xs, ys, i, j);
    SquaresNonneg(s);
    GuardBySquares(sqrt, Norm2(s), p.r);
  }

  lemma SquaresNonneg(s: Vec)
    ensures 0.0 <= Norm2(s)
  {
    MulNonneg(Abs(s.x), Abs(s.x));
    MulNonneg(Abs(s.y), Abs(s.y));
    assert s.x * s.x == Abs(s.x) * Abs(s.x);
    assert s.y * s.y == Abs(s.y) * Abs(s.y);
  }

  /** The coefficient of a pair is `forces[type_i][type_j]`: the row is the
      type of the particle that is pushed, the column the type of the one
      that pushes. No other matrix entry matters. */
  lemma PairForceUsesDirectedEntry(xs: seq<real>, ys: seq<real>, ts: seq<int>,
                                   m1: seq<seq<real>>, m2: seq<seq<real>>,
                                   p: Params, sqrt: real -> real, i: nat, j: nat)
    requires Layout(xs, ys, ts, m1) && Layout(xs, ys, ts, m2)
    requires i < |xs| && j < |xs| && 0.0 < p.beta
    requires m1[ts[i]][ts[j]] == m2[ts[i]][ts[j]]
    ensures PairForce(xs, ys, ts, m1, p, sqrt, i, j) == PairForce(xs, ys, ts, m2, p, sqrt, i, j)
  {
  }

  /** Inside the radius the contribution has the length of the force law's
      value and points along the displacement from `i` to `j`: its dot
      product with that displacement is `f * dist`. A positive value pulls
      particle `i` towards `j`, a negative one pushes it away. */
  lemma PairForceAlongSeparation(xs: seq<real>, ys: seq<real>, ts: seq<int>, m: seq<seq<real>>,
                                 p: Params, sqrt: real -> real, i: nat, j: nat)
    requires Layout(xs, ys, ts, m) && i < |xs| && j < |xs| && 0.0 < p.beta
    requires IsSqrt(sqrt) && 0.0 < p.r && i != j
    requires 0.0 < Norm2(Separation(xs, ys, i, j)) < p.r * p.r
    ensures var s := Separation(xs, ys, i, j);
            var dist := sqrt(Norm2(s));
            var f := CalcForces(dist / p.r, m[ts[i]][ts[j]], p.beta);
            var v := PairForce(xs, ys, ts, m, p, sqrt, i, j);
            Norm2(v) == f * f && Dot(v, s) == f * dist
  {
    var s := Separation(xs, ys, i, j);
    var dist := sqrt(Norm2(s));
    GuardBySquares(sqrt, Norm2(s), p.r);
    var f := CalcForces(dist / p.r, m[ts[i]][ts[j]], p.beta);
    ScaledUnit(s, dist, f);
  }

  /** `(s / dist) * f` has squared length `f * f` and dot product `f * dist`
      with `s` when `dist` is the length of `s`. */
  lemma ScaledUnit(s: Vec, dist: real, f: real)
    requires 0.0 < dist && dist * dist == Norm2(s)
    ensures Norm2(Vec(s.x / dist * f, s.y / dist * f)) == f * f
    ensures Dot(Vec(s.x / dist * f, s.y / dist * f), s) == f * dist
  {
    var a := s.x / dist;
    var b := s.y / dist;
    var d2 := dist * dist;
    SquareMonotone(0.0, dist, 0.0, d2);
    assert a * dist == s.x && b * dist == s.y;
    assert (a * a + b * b) * d2 == s.x * s.x + s.y * s.y;
    MulDiv(a * a + b * b, d2);
    MulDiv(1.0, d2);
    assert a * a + b * b == 1.0;
    assert Norm2(Vec(a * f, b * f)) == (a * a + b * b) * (f * f);
    assert Dot(Vec(a * f, b * f), s) == f * (a * s.x + b * s.y);
    assert a * s.x + b * s.y == (a * a + b * b) * dist;
  }

  /** With matrix entries in `[-1, 1]` and `0 < beta <= 1`, a single pair
      contributes a force of length at most 1. */
  lemma PairForceBounded(xs: seq<real>, ys: seq<real>, ts: seq<int>, m: seq<seq<real>>,
                         p: Params, sqrt: real -> real, i: nat, j: nat)
    requires Layout(xs, ys, ts, m) && i < |xs| && j < |xs| && 0.0 < p.beta <= 1.0
    requires IsSqrt(sqrt) && 0.0 < p.r && UnitCoefficients(m)
    ensures Norm2(PairForce(xs, ys, ts, m, p, sqrt, i, j)) <= 1.0
  {
    var s := Separation(xs, ys, i, j);
    var dist := sqrt(Norm2(s));
    SquaresNonneg(s);
    GuardBySquares(sqrt, Norm2(s), p.r);
    if i != j && 0.0 < dist < p.r {
      PairForceAlongSeparation(xs, ys, ts, m, p, sqrt, i, j);
      var c := m[ts[i]][ts[j]];
      DivBelowOne(dist, p.r);
      ForceLawBounded(dist / p.r, c, p.beta);
      var f := CalcForces(dist / p.r, c, p.beta);
      SquareAtMostOne(f, f * f);
    }
  }

  /** Each coordinate of a vector of length at most 1 lies in `[-1, 1]`. */
  lemma ComponentsBounded(v: Vec)
    requires Norm2(v) <= 1.0
    ensures Abs(v.x) <= 1.0 && Abs(v.y) <= 1.0
  {
    SquaresNonneg(Vec(v.x, 0.0));
    SquaresNonneg(Vec(0.0, v.y));
    RootAtMostOne(v.x, v.x * v.x);
    RootAtMostOne(v.y, v.y * v.y);
  }

  /** After visiting `n` particles, each coordinate of the accumulated force is
      at most `n` in magnitude (with entries in `[-1, 1]`, `0 < beta <= 1`). */
  lemma {:induction false} TotalForceBounded(xs: seq<real>, ys: seq<real>, ts: seq<int>,
                                             m: seq<seq<real>>, p: Params, sqrt: real -> real,
                                             i: nat, n: nat)
    requires Layout(xs, ys, ts, m) && i < |xs| && n <= |xs| && 0.0 < p.beta <= 1.0
    requires IsSqrt(sqrt) && 0.0 < p.r && UnitCoefficients(m)
    ensures Abs(TotalForce(xs, ys, ts, m, p, sqrt, i, n).x) <= n as real
    ensures Abs(TotalForce(xs, ys, ts, m, p, sqrt, i, n).y) <= n as real
    decreases n
  {
    if n > 0 {
      TotalForceBounded(xs, ys, ts, m, p, sqrt, i, n - 1);
      PairForceBounded(xs, ys, ts, m, p, sqrt, i, n - 1);
      ComponentsBounded(PairForce(xs, ys, ts, m, p, sqrt, i, n - 1));
    }
  }

  /** Two-phase update: a particle's next velocity and position depend on the
      other particles only through the positions at the start of the tick,
      never through their velocities. */
  lemma StepReadsPositionSnapshot(w1: World, w2: World, p: Params, sqrt: real -> real, k: nat)
    requires Valid(w1) && Valid(w2) && 0.0 < p.beta
    requires w1.xs == w2.xs && w1.ys == w2.ys && w1.ts == w2.ts && w1.m == w2.m
    requires k < |w1.xs| && w1.vxs[k] == w2.vxs[k] && w1.vys[k] == w2.vys[k]
    ensures Step(w1, p, sqrt).vxs[k] == Step(w2, p, sqrt).vxs[k]
    ensures Step(w1, p, sqrt).vys[k] == Step(w2, p, sqrt).vys[k]
    ensures Step(w1, p, sqrt).xs[k] == Step(w2, p, sqrt).xs[k]
    ensures Step(w1, p, sqrt).ys[k] == Step(w2, p, sqrt).ys[k]
  {
  }

  /** From the initial state, positions stay in `[0, X) x [0, Y)` after any
      number of ticks, and count, types and matrix never change. */
  lemma RunStaysInWorld(w: World, p: Params, sqrt: real -> real, n: nat)
    requires Initial(w) && 0.0 < p.beta
    ensures var r := Run(w, p, sqrt, n);
            InWorld(r.xs, r.ys) && |r.xs| == |w.xs| && r.ts == w.ts && r.m == w.m
  {
    if n == 0 {
      assert InWorld(w.xs, w.ys);
    }
  }

  // ---------------------------------------------------------------------------
  // The tick over the arrays of `run_simulation`

  /** The particle lists as a `World` value. */
  function Snapshot(px: array<real>, py: array<real>, vx: array<real>, vy: array<real>,
                    ts: array<int>, m: seq<seq<real>>): World
    reads px, py, vx, vy, ts
  {
    World(px[..], py[..], vx[..], vy[..], ts[..], m)
  }

  /** The lists of one run: all of length `num_particles`, four distinct
      lists of reals, types inside the square matrix. */
  predicate Lists(px: array<real>, py: array<real>, vx: array<real>, vy: array<real>,
                  ts: array<int>, m: seq<seq<real>>)
    reads ts
  {
    py.Length == px.Length && vx.Length == px.Length && vy.Length == px.Length &&
    ts.Length == px.Length &&
    px != py && px != vx && px != vy && py != vx && py != vy && vx != vy &&
    SquareMatrix(m) && TypesIn(ts[..], m)
  }

  /** The body of the inner loop (lines 81-92): what particle `j` adds to
      particle `i`'s total force. */
  method PairContribution(px: array<real>, py: array<real>, ts: array<int>, m: seq<seq<real>>,
                          p: Params, sqrt: real -> real, i: nat, j: nat) returns (gx: real, gy: real)
    requires py.Length == px.Length && ts.Length == px.Length && i < px.Length && j < px.Length
    requires SquareMatrix(m) && TypesIn(ts[..], m) && 0.0 < p.beta
    ensures Vec(gx, gy) == PairForce(px[..], py[..], ts[..], m, p, sqrt, i, j)
  {
    gx, gy := 0.0, 0.0;
    if i != j {
      var dx := Delta(px[i], px[j], SizeX);
      var dy := Delta(py[i], py[j], SizeY);
      var dist := sqrt(Norm2(Vec(dx, dy)));
      assert Vec(dx, dy) == Separation(px[..], py[..], i, j);
      if 0.0 < dist < p.r {
        var force := CalcForces(dist / p.r, m[ts[i]][ts[j]], p.beta);
        gx := dx / dist * force;
        gy := dy / dist * force;
      }
    }
  }

  /** The inner loop of lines 78-92 for particle `i`: returns the unscaled
      `tot_force_x`, `tot_force_y`. */
  method ComputeForce(px: array<real>, py: array<real>, ts: array<int>, m: seq<seq<real>>,
                      p: Params, sqrt: real -> real, i: nat) returns (fx: real, fy: real)
    requires py.Length == px.Length && ts.Length == px.Length && i < px.Length
    requires SquareMatrix(m) && TypesIn(ts[..], m) && 0.0 < p.beta
    ensures Vec(fx, fy) == TotalForce(px[..], py[..], ts[..], m, p, sqrt, i, px.Length)
  {
    fx, fy := 0.0, 0.0;
    var j := 0;
    while j < px.Length
      invariant 0 <= j <= px.Length
      invariant Vec(fx, fy) == TotalForce(px[..], py[..], ts[..], m, p, sqrt, i, j)
    {
      var gx, gy := PairContribution(px, py, ts, m, p, sqrt, i, j);
      fx := fx + gx;
      fy := fy + gy;
      j := j + 1;
    }
  }

  /** Phase 1 (lines 77-99): every velocity gets friction and the scaled force
      impulse, with forces read from positions that the loop never writes. */
  method UpdateVelocities(px: array<real>, py: array<real>, vx: array<real>, vy: array<real>,
                          ts: array<int>, m: seq<seq<real>>, p: Params, sqrt: real -> real)
    requires Lists(px, py, vx, vy, ts, m) && 0.0 < p.beta
    modifies vx, vy
    ensures forall k :: 0 <= k < vx.Length ==>
      vx[k] == Accelerate(old(vx[k]), TotalForce(px[..], py[..], ts[..], m, p, sqrt, k, px.Length).x, p)
    ensures forall k :: 0 <= k < vy.Length ==>
      vy[k] == Accelerate(old(vy[k]), TotalForce(px[..], py[..], ts[..], m, p, sqrt, k, px.Length).y, p)
  {
    var n := px.Length;
    var i := 0;
    while i < n
      invariant 0 <= i <= n
      invariant forall k :: 0 <= k < i ==>
        vx[k] == Accelerate(old(vx[k]), TotalForce(px[..], py[..], ts[..], m, p, sqrt, k, n).x, p)
      invariant forall k :: 0 <= k < i ==>
        vy[k] == Accelerate(old(vy[k]), TotalForce(px[..], py[..], ts[..], m, p, sqrt, k, n).y, p)
      invariant forall k :: i <= k < n ==> vx[k] == old(vx[k]) && vy[k] == old(vy[k])
    {
      var fx, fy := ComputeForce(px, py, ts, m, p, sqrt, i);
      vx[i] := Accelerate(vx[i], fx, p);
      vy[i] := Accelerate(vy[i], fy, p);
      i := i + 1;
    }
  }

  /** Phase 2 (lines 101-104): every position moves by its new velocity and
      wraps into the world. */
  method UpdatePositions(px: array<real>, py: array<real>, vx: array<real>, vy: array<real>, dt: real)
    requires py.Length == px.Length && vx.Length == px.Length && vy.Length == px.Length
    requires px != py && px != vx && px != vy && py != vx && py != vy
    modifies px, py
    ensures forall k :: 0 <= k < px.Length ==> px[k] == Move(old(px[k]), vx[k], dt, SizeX)
    ensures forall k :: 0 <= k < py.Length ==> py[k] == Move(old(py[k]), vy[k], dt, SizeY)
    ensures InWorld(px[..], py[..])
  {
    var idx := 0;
    while idx < px.Length
      invariant 0 <= idx <= px.Length
      invariant forall k :: 0 <= k < idx ==>
        px[k] == Move(old(px[k]), vx[k], dt, SizeX) && py[k] == Move(old(py[k]), vy[k], dt, SizeY)
      invariant forall k :: idx <= k < px.Length ==> px[k] == old(px[k]) && py[k] == old(py[k])
    {
      px[idx] := Move(px[idx], vx[idx], dt, SizeX);
      py[idx] := Move(py[idx], vy[idx], dt, SizeY);
      idx := idx + 1;
    }
  }

  /** One iteration of the `while True` loop without drawing. */
  method Tick(px: array<real>, py: array<real>, vx: array<real>, vy: array<real>,
              ts: array<int>, m: seq<seq<real>>, p: Params, sqrt: real -> real)
    requires Lists(px, py, vx, vy, ts, m) && 0.0 < p.beta
    modifies px, py, vx, vy
    ensures Snapshot(px, py, vx, vy, ts, m) == Step(old(Snapshot(px, py, vx, vy, ts, m)), p, sqrt)
  {
    ghost var w := Snapshot(px, py, vx, vy, ts, m);
    UpdateVelocities(px, py, vx, vy, ts, m, p, sqrt);
    UpdatePositions(px, py, vx, vy, p.dt);
    ghost var r := Step(w, p, sqrt);
    assert vx[..] == r.vxs;
    assert vy[..] == r.vys;
    assert px[..] == r.xs;
    assert py[..] == r.ys;
  }

  /** `n` ticks; the source runs until the stop flag is set. */
  method Simulate(px: array<real>, py: array<real>, vx: array<real>, vy: array<real>,
                  ts: array<int>, m: seq<seq<real>>, p: Params, sqrt: real -> real, n: nat)
    requires Lists(px, py, vx, vy, ts, m) && 0.0 < p.beta
    modifies px, py, vx, vy
    ensures Snapshot(px, py, vx, vy, ts, m) == Run(old(Snapshot(px, py, vx, vy, ts, m)), p, sqrt, n)
  {
    ghost var w := Snapshot(px, py, vx, vy, ts, m);
    var t := 0;
    while t < n
      invariant 0 <= t <= n
      invariant Lists(px, py, vx, vy, ts, m)
      invariant Snapshot(px, py, vx, vy, ts, m) == Run(w, p, sqrt, t)
    {
      Tick(px, py, vx, vy, ts, m, p, sqrt);
      t := t + 1;
    }
  }
}
