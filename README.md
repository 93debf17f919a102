# Particle-life force engine in Dafny

A model of the force-field engine of a "particle life" simulation: point
particles of several types move on a wrap-around (toroidal) 2D world of
`X = 800` by `Y = 1280`, each pair of particles closer than the interaction
radius `r` exchanging a force given by a piecewise law of their normalised
distance and by a directed type-to-type interaction matrix.

Four modules, one file each:

- `arith.dfy` (`Arith`): Python's `abs` on reals, the predicate `IsSqrt` saying
  what the model needs of `math.sqrt`, and small real-arithmetic lemmas.
- `force_law.dfy` (`ForceLaw`): `CalcForces`, the function `calc_forces`
  (simulation.py:7-25), with its tent factor `Tent` and the lemmas about the
  three regimes of the law, its bounds, where it vanishes and its Lipschitz
  continuity.
- `torus.dfy` (`Torus`): the wrap-around geometry: `Wrap` is Python's `%` on
  a float with a positive modulus (simulation.py:103-104), `Delta` the
  displacement shortened across the edge (simulation.py:84-87).
- `simulation.dfy` (`Simulation`): one tick of the `while True` loop of
  `run_simulation` (simulation.py:77-104). The tick is specified on values by
  `PairForce`, `TotalForce`, `Accelerate`, `Move`, `Step` and `Run`, and then
  modelled in the source's imperative form over arrays: `PairContribution`
  (inner-loop body), `ComputeForce` (inner loop), `UpdateVelocities` (phase 1,
  writes only the velocity arrays), `UpdatePositions` (phase 2, writes only
  the position arrays), `Tick` and `Simulate` (`n` ticks). Each method's
  postcondition ties the new array contents to the value-level function.

`math.sqrt` is a parameter `sqrt: real -> real` of the functions and methods
that use it; lemmas that need it to be a square root require `IsSqrt(sqrt)`.
Reals are exact: the model has no floating-point rounding.

Direction of the force. The source adds `force * (dx/dist, dy/dist)` to
particle `i`, where `(dx, dy)` points from `i` to `j`
(simulation.py:82-92). A positive value of the law therefore pulls `i`
towards `j` and a negative value pushes it away. The near-field value
`dist/beta - 1` is negative, so close particles push each other apart,
although the docstring and the comment at simulation.py:9-12 and 21 call it
an attraction. The model follows the code; the lemma
`Simulation.PairForceAlongSeparation` states the direction.

The band branch of the law is taken for `beta < dist < 1` (strict on both
sides, simulation.py:22); at `dist == beta` the law falls through to 0, which
is the value the tent would give there as well (`ForceLaw.ForceVanishes`,
`ForceLaw.TentVanishesAtBandEnds`).

## Model

| member | source | states |
|---|---|---|
| `ForceLaw.NearFieldIgnoresCoefficient` | simulation.py:20-21 | for `0 <= dist < beta` the law is `dist/beta - 1`, lies in `[-1, 0)` and is the same for every matrix coefficient |
| `ForceLaw.TentInUnitInterval` | simulation.py:22-23 | inside the band `beta < dist < 1` the tent factor lies in `(0, 1]` and equals 1 exactly at `dist == (1 + beta)/2` |
| `ForceLaw.TentVanishesAtBandEnds` | simulation.py:22-23 | the tent factor is 0 at `dist == beta` and at `dist == 1` |
| `ForceLaw.MidFieldFollowsCoefficient` | simulation.py:22-23 | inside the band the law is positive iff the coefficient is, negative iff it is, no larger in magnitude than the coefficient, and equal to it at the middle of the band |
| `ForceLaw.ForceVanishes` | simulation.py:20-25 | the law is 0 at `dist == beta` and, for `beta <= 1`, at every `dist >= 1` |
| `ForceLaw.ForceLawBounded` | simulation.py:20-25 | for `0 < beta <= 1`, `dist >= 0` and a coefficient in `[-1, 1]` the law lies in `[-1, 1]` |
| `ForceLaw.NearFieldExample` | simulation.py:20-21 | `calc_forces(0.1, 0.5, 0.3) == 0.1/0.3 - 1 == -2/3` |
| `ForceLaw.TentSlope` | simulation.py:23 | the tent factor changes by at most `2/(1-beta)` per unit of distance |
| `ForceLaw.BandSlope` | simulation.py:23 | the band expression `force * tent` changes by at most `2 abs(force)/(1-beta)` per unit of distance |
| `ForceLaw.NearLawSlope` | simulation.py:20-21 | on `dist <= beta` the law changes by at most `1/beta` per unit of distance |
| `ForceLaw.BandLawSlope` | simulation.py:20-25 | on the closed band `[beta, 1]` the law changes by at most `2 abs(force)/(1-beta)` per unit of distance |
| `ForceLaw.ForceLawLipschitz` | simulation.py:20-25 | for `0 < beta < 1` and any `d1 <= d2`, the law changes by at most `(1/beta + 2 abs(force)/(1-beta)) * (d2 - d1)`: it is continuous, with no jump at `beta` or at 1 |
| `Torus.Wrap` | simulation.py:103-104 | the wrapped coordinate lies in `[0, size)` and differs from the input by a whole number of world sizes |
| `Torus.WrapKeepsInside` | simulation.py:103-104 | a coordinate already in `[0, size)` is left unchanged |
| `Torus.WrapIsUnique` | simulation.py:103-104 | any representative in `[0, size)` that differs from the input by a whole number of sizes is the wrapped value |
| `Torus.DeltaWithinHalf` | simulation.py:82-87 | for coordinates inside the world the displacement is at most half the world long and differs from `to - from` by `-size`, 0 or `size` |
| `Torus.DeltaIsShortest` | simulation.py:82-87 | no other representative `to - from + n*size` of the difference is shorter than the displacement |
| `Torus.DeltaAntisymmetric` | simulation.py:82-87 | swapping the two coordinates negates the displacement |
| `Torus.DeltaAcrossEdge` | simulation.py:84-87 | two points one unit inside opposite edges are 2 apart across the edge, with the sign pointing across it |
| `Simulation.GuardBySquares` | simulation.py:88-89 | the guard `0 < sqrt(d2) < r` holds exactly when `0 < d2 < r*r` |
| `Simulation.PairForceVanishes` | simulation.py:81-92 | a pair adds nothing when `i == j`, when the two particles coincide, or when they are at least `r` apart |
| `Simulation.PairForceUsesDirectedEntry` | simulation.py:90 | the contribution of `j` to `i` depends on the matrix only through `forces[type_i][type_j]` |
| `Simulation.PairForceAlongSeparation` | simulation.py:88-92 | inside the radius the contribution has squared length `f*f` and dot product `f*dist` with the displacement from `i` to `j`, where `f` is the force law at `dist/r`: it points along the displacement for positive `f` and against it for negative `f` |
| `Simulation.ScaledUnit` | simulation.py:91-92 | `(dx/dist*f, dy/dist*f)` has squared length `f*f` and dot product `f*dist` with `(dx, dy)` when `dist` is the length of `(dx, dy)` |
| `Simulation.PairForceBounded` | simulation.py:81-92 | with matrix entries in `[-1, 1]` and `0 < beta <= 1` one pair contributes a force of length at most 1 |
| `Simulation.TotalForceBounded` | simulation.py:78-92 | after visiting `n` particles each coordinate of the accumulated force is at most `n` in magnitude |
| `Simulation.Step` | simulation.py:77-104 | one tick keeps the particle count, the types and the matrix, and leaves every position inside `[0, X) x [0, Y)` |
| `Simulation.Run` | simulation.py:74-104 | `n` ticks keep count, types and matrix, and after at least one tick every position is inside the world |
| `Simulation.StepReadsPositionSnapshot` | simulation.py:77-104 | two-phase update: a particle's next velocity and position depend on the other particles only through the positions at the start of the tick |
| `Simulation.RunStaysInWorld` | simulation.py:67-72 | from an initial state as drawn by the source, every position stays in the world after any number of ticks, and count, types and matrix never change |
| `Simulation.PairContribution` | simulation.py:81-92 | the inner-loop body returns exactly the pair force of `j` on `i` computed from the position arrays |
| `Simulation.ComputeForce` | simulation.py:78-92 | the inner loop returns the total force on `i`, summed over `j = 0 .. n-1` in order, from the position arrays |
| `Simulation.UpdateVelocities` | simulation.py:77-99 | phase 1 sets every velocity to `friction * v + force * r * 100 * dt`, with the force computed from the unchanged positions; only the velocity arrays change |
| `Simulation.UpdatePositions` | simulation.py:101-104 | phase 2 sets every position to `(pos + v*dt) % size` and leaves all of them inside the world; only the position arrays change |
| `Simulation.Tick` | simulation.py:77-104 | one iteration of the loop turns the arrays into `Step` of their old contents |
| `Simulation.Simulate` | simulation.py:74-104 | `n` iterations turn the arrays into `Run` of their old contents, `n` ticks |

## Left out

- Random initialisation (simulation.py:67-72): types, positions, velocities
  and the matrix are inputs; the predicate `Initial` states the ranges the
  source draws them from, and `RunStaysInWorld` assumes them.
- Drawing and display (simulation.py:64-65, 75, 102, 106-109, 115): the
  OpenCV canvas, the colour table and the Streamlit image are output only and
  do not feed back into the state. The colour table has five entries while
  the type count can be set up to 10 (streamlit_ui.py:6); drawing a particle
  of type 5 or higher would fail, which the model does not capture.
- The stop flag (simulation.py:111-113): the `while True` loop becomes `n`
  ticks in `Simulate`; the session state it polls is not modelled.
- main.py and streamlit_ui.py (the control surface) are not part of this
  model, beyond the parameter ranges the lemmas assume.
- `math.sqrt` is a function parameter, characterised by `IsSqrt` where a
  lemma needs it.
- IEEE floating-point arithmetic: all quantities are exact reals, so rounding,
  overflow and the float behaviour of `%` near the modulus (where a float
  result can round up to `size`) are not modelled. `Wrap` states the
  exact-arithmetic result of Python's `%` for a positive modulus.
- Python's integer positions before the first tick are reals with a whole
  value (`IsWhole` in `Initial`); the change of type after the first move does
  not matter to the exact model.
- `Simulation.Step` and `Simulation.Run`: their contracts state the
  invariants the tick keeps (count, types, matrix, positions in the world);
  what the new velocities and positions are is stated by the methods `Tick`
  and `Simulate`, whose postconditions equate the arrays with `Step` and
  `Run`.
