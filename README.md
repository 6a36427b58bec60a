# Three-body problem simulator: a Dafny model of its core

The program lets a user place three planets on a pygame screen. Each planet
gets its position, then its size, then its velocity, one mouse click per
stage. The program then hands the planets to a VPython simulation, which
integrates the three-body problem with a classical fourth-order Runge-Kutta
method. This project models that core in four modules:

- `Vectors` (`vectors.dfy`) holds two-dimensional vectors over the reals, with
  the sums and scalings the program does on numpy arrays and VPython vectors.
- `Planets` (`planet.dfy`) is the `Planet` class of planet.py. It is a Dafny
  class whose property setters are methods with field-level `modifies`
  frames. The position getter truncates toward zero, the velocity setter
  scales by STANDARD_VELOCITY, and the radius and mass setters cap their
  multiplier at 1.
- `Placement` (`main.py` in `main.dfy`) is the placement protocol. It is stated
  twice:
  - as pure functions on the list of the planets' flags (`Click`,
    `AfterClick`, `AfterFrame`, `IsReady`), with the protocol invariant
    `Valid` and a progress measure `Total`;
  - as methods on a `seq<Planet>` (`HandleClick`, `Frame` and the `Set*`
    helpers), whose postconditions tie the planets' new flags to those
    functions.
- `Simulation` (`simulation.dfy`) covers the conversion from pixels to
  simulation units, the centre-of-mass velocity correction, the derivative
  `Dydt`, and one Runge-Kutta step. The step is stated as a function `Rk4Step`
  on a six-slot `State` and as the method `Simulate.Step`, which updates the
  three `Sphere` objects in place.

Modelling decisions:

- Arithmetic is exact over `real`. The floating-point rounding of the source
  is not modelled.
- `Planet.position` returns Python ints, and simulation.py:28 divides them by
  the int `20`. The program is Python 2 code, so this is floor division, and
  `-y/20` parses as `(-y)/20`. `ToInternalPosition` models exactly that, and
  `ExactOnGrid` shows it agrees with exact division only on multiples of 20.
  A plain reading of "divide by 20" would give exact division; the model
  follows the code.
- `math.hypot` in set_size needs a square root. Its result is the parameter
  `length` of `SetSize`, `SetInitialConditions` and `Frame`.
- The scaled separation `r / mag(r)**3` in dydt is the function parameter
  `invCube`. It is applied only to non-zero separations.
- Two situations in the source raise a division by zero. Each is modelled as
  an error value of `Result`:
  - Coincident positions make `mag(r)` zero (`SingularSeparation`).
  - A zero total mass makes the centre-of-mass division fail
    (`ZeroTotalMass`).
- The source does not check that masses are positive, and the set-size
  arithmetic can give a zero mass. The model does not require positive
  masses either. Only the `Simulate` constructor, which performs the
  division, requires a non-zero total.
- The masses are fields of the spheres. The step reads them, through
  `Simulate.MassTriple`, and never writes them.

## Model

| member | source | states |
|---|---|---|
| Planets.Trunc | planet.py:43-44 | `int()` on a float: the result is within one of x, on the side of zero |
| Planets.TruncWhole | planet.py:43-55 | truncating a whole number gives it back, so an integer position written is read back unchanged |
| Planets.Cap | planet.py:91-92 | the setters' cap: the multiplier when at most 1, else 1 |
| Planets.RadiusFor | planet.py:91-93 | the stored radius is at most MAX_RADIUS, non-negative for a non-negative multiplier, equal to 25 from multiplier 1 on, and int(multiplier·25) below that |
| Planets.MassFor | planet.py:109-112 | the stored mass is at most MAX_MASS, equals 10 from multiplier 1 on, has no lower clamp, and is zero exactly for multiplier 0 |
| Planets.Planet.constructor | planet.py:26-36 | a new planet keeps its colour, has zero position and velocity, radius 15, mass 10 and all flags false, so it is not ready |
| Planets.Planet.Position | planet.py:38-45 | the position getter: each stored coordinate truncated toward zero, so it has the coordinate's sign and is less than one away from it |
| Planets.Planet.SetPosition | planet.py:47-55 | stores both coordinates as reals, touches no other field, and the getter then returns the coordinates written |
| Planets.Planet.SetVelocity | planet.py:66-74 | the velocity becomes STANDARD_VELOCITY times each multiplier; no other field changes |
| Planets.Planet.SetRadius | planet.py:84-93 | the radius becomes RadiusFor(multiplier), in [0, 25] for a non-negative multiplier; no other field changes |
| Planets.Planet.SetMass | planet.py:102-112 | the mass becomes MassFor(multiplier), at most MAX_MASS; no other field changes |
| Planets.Planet.IsReady | planet.py:114-115 | ready exactly when placed, sized and directed all hold |
| Placement.IsReady | main.py:88-98 | is_ready(planets): false for any list that does not hold exactly three planets, and for three planets true exactly when the last one has all three flags set; earlier planets are not looked at |
| Placement.Click | main.py:74-81 | a click sets the first false flag in the order placed, sized, directed: it sets exactly one more flag unless all are set, never clears one, changes nothing on a ready planet, and keeps the flags in order |
| Placement.AfterClick | main.py:70-81 | the click handler changes only the last planet: nothing when the list is ready, otherwise the last planet's flags become Click of them |
| Placement.AfterFrame | main.py:48-53 | the list grows exactly when it is not ready and its last planet is ready, and then by one unset planet; otherwise it is unchanged |
| Placement.StartValid | main.py:39 | the starting list of one new planet satisfies the protocol invariant, is not ready and has no flag set |
| Placement.ThreeClicks | main.py:74-81 | a new planet is not ready after two clicks and is ready after three |
| Placement.AfterClickValid | main.py:70-81 | a click keeps the invariant: at most three planets, flags in order, every planet before the last ready |
| Placement.AfterFrameValid | main.py:48-53 | the append step keeps the invariant, so the list never exceeds three planets |
| Placement.ReadyMeansAllReady | main.py:88-98 | is_ready looks only at the last planet, yet on a valid list it holds exactly when there are three planets and all are ready |
| Placement.TotalOfReady | planet.py:114-115 | a list of ready planets has three flags set per planet |
| Placement.TotalOfValid | main.py:48-53 | on a valid list, every planet before the last contributes all three flags to the count |
| Placement.ReadyIffNineFlags | main.py:88-98 | a valid list has at most nine flags set, and it is ready exactly when all nine are set |
| Placement.ClickMakesProgress | main.py:47-81 | a frame followed by a click on a list that is not ready keeps the invariant and sets exactly one more flag |
| Placement.SizeMultiplier | main.py:145 | the multiplier times MAX_VECTOR is the drag length |
| Placement.VelocityMultipliers | main.py:165-168 | the multipliers times MAX_VECTOR are the offset from planet to mouse |
| Placement.SizeFromDrag | main.py:142-148 | for a drag of length ≥ 0: mass in [0, 10], radius in [0, 25], radius = int(2.5·mass), both at their maxima from a 200-pixel drag on, and mass zero exactly for a zero drag |
| Placement.VelocityFromDrag | main.py:165-169 | the velocity is 0.35·(mouse − position)/200 per axis, and zero exactly when the mouse is on the planet's position |
| Placement.SetInitialPosition | main.py:122-129 | the planet's position becomes the mouse position and reads back as it |
| Placement.SetSize | main.py:131-148 | radius and mass come from the same multiplier length/200; position, velocity and flags are untouched |
| Placement.SetInitialVelocity | main.py:155-169 | the velocity becomes STANDARD_VELOCITY times the offset to the mouse over MAX_VECTOR; only the velocity changes |
| Placement.SetInitialConditions | main.py:100-116 | only the attribute of the planet's current stage changes (position if not placed, size if not sized, velocity if not directed), and no flag changes |
| Placement.HandleClick | main.py:70-81 | the planets' flags become AfterClick of the old flags, only the last planet's flags can change, and the invariant is kept |
| Placement.Frame | main.py:47-53 | the flags become AfterFrame of the old flags and the invariant is kept. While the list is not ready, a planet that is not ready takes its stage's condition and nothing is appended. A ready last planet makes the frame append one fresh initial planet and leaves the others alone |
| Simulation.MomentumOfSum | simulation.py:72-79 | total momentum is additive over states |
| Simulation.MomentumOfScaled | simulation.py:68-72 | scaling a state scales its total momentum |
| Simulation.ToInternalPosition | simulation.py:28 | integer coordinates floor-divided by 20, the vertical one negated first: each result is whole and within one grid cell of the pixel coordinate |
| Simulation.ExactOnGrid | simulation.py:28 | the conversion equals exact division (and multiplying back recovers the pixels) exactly when both coordinates are multiples of 20 |
| Simulation.ToInternalVelocity | simulation.py:29 | the velocity keeps its horizontal component and negates the vertical one, with no scaling |
| Simulation.VelocityFlipInvolution | simulation.py:29 | flipping the velocity twice gives it back |
| Simulation.CentreVelocity | simulation.py:55 | vcentre times the total mass is the total momentum; a zero total mass is an error |
| Simulation.Recentre | simulation.py:57-58 | every body's velocity loses the same vector, positions and pairwise velocity differences are kept, and a zero total mass is an error |
| Simulation.RecentreZeroesMomentum | simulation.py:54-58 | after the correction the total momentum is zero |
| Simulation.Dydt | simulation.py:81-90 | defined exactly when the three positions are pairwise distinct; the position slots are the velocities, and the accelerations have zero mass-weighted sum whatever the scaled separations |
| Simulation.PairForcesCancel | simulation.py:86-88 | for any masses and any scaled separations, the three accelerations of dydt have zero mass-weighted sum |
| Simulation.CombineConstant | simulation.py:72 | the weights 1/6, 1/3, 1/3, 1/6 sum to one |
| Simulation.Increment | simulation.py:67-72 | k1 to k4 and dy = k1/6 + k2/3 + k3/3 + k4/6: it succeeds only if the first derivative does, its only failure is a singular separation, and dy has zero total momentum |
| Simulation.Rk4Step | simulation.py:67-79 | a step succeeds only if the first derivative does, and its only failure is a singular separation |
| Simulation.ConstantSlopeStep | simulation.py:67-79 | if the derivative has the same value f at all four points, the step gives exactly y + dt·f |
| Simulation.ScaledSlopeMomentum | simulation.py:68-71 | a slope of zero momentum keeps zero momentum when multiplied by dt |
| Simulation.SumMomentum | simulation.py:72 | the sum of two states of zero momentum has zero momentum |
| Simulation.CombineMomentum | simulation.py:72 | an increment combined from slopes of zero momentum has zero momentum |
| Simulation.StepConservesMomentum | simulation.py:67-79 | one step leaves the total momentum unchanged |
| Simulation.Converted | simulation.py:28-50 | each planet becomes a body whose position is the whole-numbered grid cell of its pixel position (vertical axis flipped) and whose velocity, flipped back, is the planet's velocity |
| Simulation.Sphere.constructor | simulation.py:28-30 | a sphere holds the given position, velocity and mass |
| Simulation.Simulate.constructor | simulation.py:22-58 | three distinct fresh spheres carry the planets' masses, and their state is the converted planets after the correction. Their total momentum is zero and dt is 0.1 |
| Simulation.Simulate.Step | simulation.py:67-79 | the spheres' new state is Rk4Step of the old one. On a singular separation nothing changes. Masses are never written, and the total momentum is unchanged |

## Left out

- All drawing and text: the pygame display, fonts, clock, event polling, quit handling, `draw_velocity_vector`, `Planet.draw`, the VPython window, trails and `rate(100)`. These are UI and I/O.
- The two `while True` loops. One frame, one click and one integration step are modelled, each as its own operation.
- The key event that starts the simulation (main.py:83-84) is left out. `ReadyMeansAllReady` states the condition that event depends on.
- `math.hypot` (main.py:142) and `mag` (simulation.py:85) need square roots. The drag length is a parameter, and the scaled separation is the parameter `invCube`.
- The sphere display radius `0.5*mass**(1/3)` (simulation.py:59) needs a cube root.
- The conversion of colours to the 0-1 range (simulation.py:31) is left out. Colours are only carried along.
- `random_color` and the colours module are not part of this model. A new planet's colour is a parameter.
- IEEE floating point: rounding, overflow, and energy drift over many steps.
- The VPython vectors' third coordinate is always zero here, so vectors are two-dimensional.
- Planets.Planet.SetPosition: it takes integer coordinates, which is what its one caller passes (a mouse position). A float written through the setter is not modelled.
- Placement.SetInitialConditions: requires a planet that is not ready. With a ready planet none of its branches runs, and reading the unassigned local `message` at main.py:118 raises UnboundLocalError; its only caller never passes a ready planet.
- Simulation.Simulate.constructor: requires a non-zero total mass. The source divides by that total; `Recentre` models the zero case as the error `ZeroTotalMass`.
