/** The force law `calc_forces` of simulation.py: the scalar force between two
    particles as a function of their distance divided by the interaction
    radius, the interaction-matrix coefficient of the pair, and `beta`. */
module ForceLaw {
  import opened Arith

  /** The tent factor of the band `beta < dist < 1`: 1 at the middle of the
      band and falling linearly towards both of its ends. */
  function Tent(dist: real, beta: real): real
    requires beta < 1.0
  {
    1.0 - Abs(2.0 * dist - 1.0 - beta) / (1.0 - beta)
  }

  /** `calc_forces(dist, force, beta)`. The second branch is only reached when
      `beta < dist < 1`, so it never divides by `1 - beta` when `beta >= 1`. */
  function CalcForces(dist: real, force: real, beta: real): real
    requires 0.0 < beta
  {
    if dist < beta then dist / beta - 1.0
    else if beta < dist < 1.0 then force * Tent(dist, beta)
    else 0.0
  }

  /** Below `beta` the result is `dist/beta - 1`, in `[-1, 0)`, whatever the
      coefficient is. */
  lemma NearFieldIgnoresCoefficient(dist: real, force: real, other: real, beta: real)
    requires 0.0 < beta && 0.0 <= dist < beta
    ensures CalcForces(dist, force, beta) == dist / beta - 1.0
    ensures -1.0 <= CalcForces(dist, force, beta) < 0.0
    ensures CalcForces(dist, force, beta) == CalcForces(dist, other, beta)
  {
    assert dist / beta * beta == dist;
  }

  /** Inside the band the tent factor lies in `(0, 1]`, and it is 1 exactly
      at the middle of the band. */
  lemma TentInUnitInterval(dist: real, beta: real)
    requires beta < dist < 1.0
    ensures 0.0 < Tent(dist, beta) <= 1.0
    ensures Tent(dist, beta) == 1.0 <==> dist == (1.0 + beta) / 2.0
  {
    var e := Abs(2.0 * dist - 1.0 - beta);
    var w := 1.0 - beta;
    assert 0.0 <= e < w;
    DivBelowOne(e, w);
    assert e / w == 0.0 <==> e == 0.0;
  }

  /** The tent factor is 0 at both ends of the band, so the law is continuous
      at `dist == beta` and at `dist == 1`. */
  lemma TentVanishesAtBandEnds(beta: real)
    requires beta < 1.0
    ensures Tent(beta, beta) == 0.0
    ensures Tent(1.0, beta) == 0.0
  {
    assert Abs(2.0 * beta - 1.0 - beta) == 1.0 - beta;
    assert Abs(2.0 - 1.0 - beta) == 1.0 - beta;
  }

  /** Inside the band the result has the sign of the coefficient, is no larger
      than it in magnitude, and equals it at the middle of the band. */
  lemma MidFieldFollowsCoefficient(dist: real, force: real, beta: real)
    requires 0.0 < beta < dist < 1.0
    ensures CalcForces(dist, force, beta) > 0.0 <==> force > 0.0
    ensures CalcForces(dist, force, beta) < 0.0 <==> force < 0.0
    ensures Abs(CalcForces(dist, force, beta)) <= Abs(force)
    ensures dist == (1.0 + beta) / 2.0 ==> CalcForces(dist, force, beta) == force
  {
    TentInUnitInterval(dist, beta);
    var t := Tent(dist, beta);
    assert CalcForces(dist, force, beta) == force * t;
    if force >= 0.0 {
      assert force * t <= force * 1.0;
    } else {
      assert force * t >= force * 1.0;
    }
  }

  /** The law is 0 exactly at `dist == beta` (the comparison `beta < dist` is
      strict) and, when `beta <= 1`, everywhere from `dist == 1` on. */
  lemma ForceVanishes(dist: real, force: real, beta: real)
    requires 0.0 < beta
    ensures dist == beta ==> CalcForces(dist, force, beta) == 0.0
    ensures beta <= 1.0 && 1.0 <= dist ==> CalcForces(dist, force, beta) == 0.0
  {
  }

  /** With a coefficient in `[-1, 1]` (the matrix is drawn from `[-1, 1)`),
      `0 < beta <= 1` and a non-negative distance, the result is in `[-1, 1]`. */
  lemma ForceLawBounded(dist: real, force: real, beta: real)
    requires 0.0 < beta <= 1.0 && 0.0 <= dist
    requires -1.0 <= force <= 1.0
    ensures -1.0 <= CalcForces(dist, force, beta) <= 1.0
  {
    if dist < beta {
      NearFieldIgnoresCoefficient(dist, force, force, beta);
    } else if beta < dist < 1.0 {
      MidFieldFollowsCoefficient(dist, force, beta);
    }
  }

  /** Two type-0 particles at a tenth of the radius, `beta = 0.3`, coefficient
      0.5: the law gives `0.1/0.3 - 1 = -2/3`. */
  lemma NearFieldExample()
    ensures CalcForces(0.1, 0.5, 0.3) == -2.0 / 3.0
  {
  }

  /** The tent factor changes by at most `2/(1-beta)` per unit of distance. */
  lemma TentSlope(d1: real, d2: real, beta: real)
    requires beta < 1.0 && d1 <= d2
    ensures Abs(Tent(d2, beta) - Tent(d1, beta)) <= 2.0 * (d2 - d1) / (1.0 - beta)
  {
    var w := 1.0 - beta;
    var p := 2.0 * d1 - 1.0 - beta;
    var q := 2.0 * d2 - 1.0 - beta;
    var A := Abs(p);
    var B := Abs(q);
    assert Tent(d2, beta) - Tent(d1, beta) == A / w - B / w;
    DivSub(A, B, w);
    AbsReverseTriangle(p, q);
    assert Abs(p - q) == 2.0 * (d2 - d1);
    AbsDiv(A - B, w);
    DivLe(Abs(A - B), 2.0 * (d2 - d1), w);
  }



  /** Inside the band the law changes by at most `2|force|/(1-beta)` per unit
      of distance. */
  lemma BandSlope(d1: real, d2: real, force: real, beta: real)
    requires beta < 1.0 && d1 <= d2
    ensures Abs(force * Tent(d2, beta) - force * Tent(d1, beta)) <= 2.0 * Abs(force) / (1.0 - beta) * (d2 - d1)
  {
    TentSlope(d1, d2, beta);
    ScaledDiff(force, Tent(d1, beta), Tent(d2, beta), 2.0 * (d2 - d1) / (1.0 - beta));
    Rearrange(Abs(force), d2 - d1, 1.0 - beta);
  }

  /** A Lipschitz constant of the law: the near-field slope plus the steepest
      band slope. */
  function Slope(force: real, beta: real): real
    requires 0.0 < beta < 1.0
  {
    1.0 / beta + 2.0 * Abs(force) / (1.0 - beta)
  }

  /** Up to and including `dist == beta` the law is the near-field line. */
  lemma NearPiece(d: real, force: real, beta: real)
    requires 0.0 < beta && d <= beta
    ensures CalcForces(d, force, beta) == d / beta - 1.0
  {
    if d == beta {
      DivSelf(beta);
    }
  }

  /** On the closed band `[beta, 1]` the law is the scaled tent. */
  lemma BandPiece(d: real, force: real, beta: real)
    requires 0.0 < beta < 1.0 && beta <= d <= 1.0
    ensures CalcForces(d, force, beta) == force * Tent(d, beta)
  {
    TentVanishesAtBandEnds(beta);
  }

  /** The near-field line has slope `1/beta`. */
  lemma NearSlope(d1: real, d2: real, beta: real)
    requires 0.0 < beta && d1 <= d2
    ensures Abs((d2 / beta - 1.0) - (d1 / beta - 1.0)) <= 1.0 / beta * (d2 - d1)
  {
    DivSub(d2, d1, beta);
    DivLe(0.0, d2 - d1, beta);
    assert (d2 - d1) / beta == 1.0 / beta * (d2 - d1);
  }

  /** A change bounded by one part of `Slope` is bounded by `Slope`. */
  lemma WithinSlope(e1: real, e2: real, force: real, beta: real, d1: real, d2: real)
    requires 0.0 < beta < 1.0 && d1 <= d2
    requires Abs(e2 - e1) <= 1.0 / beta * (d2 - d1) || Abs(e2 - e1) <= 2.0 * Abs(force) / (1.0 - beta) * (d2 - d1)
    ensures Abs(e2 - e1) <= Slope(force, beta) * (d2 - d1)
  {
    SlopeParts(force, beta);
    SumScales(1.0 / beta, 2.0 * Abs(force) / (1.0 - beta), Slope(force, beta), d2 - d1);
  }

  /** On the near-field line the law changes by at most `1/beta` per unit of
      distance. */
  lemma NearLawSlope(d1: real, d2: real, force: real, beta: real)
    requires 0.0 < beta && d1 <= d2 <= beta
    ensures Abs(CalcForces(d2, force, beta) - CalcForces(d1, force, beta)) <= 1.0 / beta * (d2 - d1)
  {
    NearPiece(d1, force, beta);
    NearPiece(d2, force, beta);
    NearSlope(d1, d2, beta);
  }

  /** Both distances in the near field. */
  lemma SlopeNearNear(d1: real, d2: real, force: real, beta: real)
    requires 0.0 < beta < 1.0 && d1 <= d2 <= beta
    ensures SlopeBound(d1, d2, force, beta)
  {
    NearLawSlope(d1, d2, force, beta);
    WithinSlope(CalcForces(d1, force, beta), CalcForces(d2, force, beta), force, beta, d1, d2);
  }

  /** On the closed band the law changes by at most `2|force|/(1-beta)` per
      unit of distance. */
  lemma BandLawSlope(d1: real, d2: real, force: real, beta: real)
    requires 0.0 < beta < 1.0 && beta <= d1 <= d2 <= 1.0
    ensures Abs(CalcForces(d2, force, beta) - CalcForces(d1, force, beta)) <= 2.0 * Abs(force) / (1.0 - beta) * (d2 - d1)
  {
    BandPiece(d1, force, beta);
    BandPiece(d2, force, beta);
    BandSlope(d1, d2, force, beta);
  }

  /** Both distances in the closed band `[beta, 1]`. */
  lemma SlopeBandBand(d1: real, d2: real, force: real, beta: real)
    requires 0.0 < beta < 1.0 && beta <= d1 <= d2 <= 1.0
    ensures SlopeBound(d1, d2, force, beta)
  {
    BandLawSlope(d1, d2, force, beta);
    WithinSlope(CalcForces(d1, force, beta), CalcForces(d2, force, beta), force, beta, d1, d2);
  }

  /** Both parts of `Slope` are non-negative. */
  lemma SlopeParts(force: real, beta: real)
    requires 0.0 < beta < 1.0
    ensures 0.0 <= 1.0 / beta && 0.0 <= 2.0 * Abs(force) / (1.0 - beta)
    ensures Slope(force, beta) == 1.0 / beta + 2.0 * Abs(force) / (1.0 - beta)
  {
    DivLe(0.0, 1.0, beta);
    DivLe(0.0, 2.0 * Abs(force), 1.0 - beta);
  }

  /** The law changes by at most `Slope(force, beta)` per unit of distance
      between `d1` and `d2`. */
  predicate SlopeBound(d1: real, d2: real, force: real, beta: real)
    requires 0.0 < beta < 1.0
  {
    Abs(CalcForces(d2, force, beta) - CalcForces(d1, force, beta)) <= Slope(force, beta) * (d2 - d1)
  }

  /** Slope bounds on adjacent intervals `[d1, m]` and `[m, d2]` join. */
  lemma SlopeJoin(d1: real, m: real, d2: real, force: real, beta: real)
    requires 0.0 < beta < 1.0 && d1 <= m <= d2
    requires SlopeBound(d1, m, force, beta) && SlopeBound(m, d2, force, beta)
    ensures SlopeBound(d1, d2, force, beta)
  {
    var L := Slope(force, beta);
    assert L * (d2 - d1) == L * (m - d1) + L * (d2 - m);
  }

  /** Both distances at or beyond the cut-off, where the law is zero. */
  lemma SlopeFar(d1: real, d2: real, force: real, beta: real)
    requires 0.0 < beta < 1.0 && 1.0 <= d1 <= d2
    ensures SlopeBound(d1, d2, force, beta)
  {
    SlopeParts(force, beta);
    ForceVanishes(d1, force, beta);
    ForceVanishes(d2, force, beta);
    MulNonneg(Slope(force, beta), d2 - d1);
  }

  /** Both distances at or beyond `beta`. */
  lemma SlopeFromBeta(d1: real, d2: real, force: real, beta: real)
    requires 0.0 < beta < 1.0 && beta <= d1 <= d2
    ensures SlopeBound(d1, d2, force, beta)
  {
    SlopeParts(force, beta);
    if 1.0 <= d1 {
      SlopeFar(d1, d2, force, beta);
    } else if d2 <= 1.0 {
      SlopeBandBand(d1, d2, force, beta);
    } else {
      SlopeBandBand(d1, 1.0, force, beta);
      SlopeFar(1.0, d2, force, beta);
      SlopeJoin(d1, 1.0, d2, force, beta);
    }
  }

  /** The law is Lipschitz continuous in the distance, with constant
      `1/beta + 2|force|/(1-beta)`: in particular it has no jump at
      `dist == beta` or at `dist == 1`. */
  lemma ForceLawLipschitz(d1: real, d2: real, force: real, beta: real)
    requires 0.0 < beta < 1.0 && d1 <= d2
    ensures SlopeBound(d1, d2, force, beta)
  {
    SlopeParts(force, beta);
    if d2 <= beta {
      SlopeNearNear(d1, d2, force, beta);
    } else if beta <= d1 {
      SlopeFromBeta(d1, d2, force, beta);
    } else {
      SlopeNearNear(d1, beta, force, beta);
      SlopeFromBeta(beta, d2, force, beta);
      SlopeJoin(d1, beta, d2, force, beta);
    }
  }
}
