/**
  The physics of the simulation window (simulation.py): the conversion of the
  three placed planets to simulation units, the centre-of-mass velocity
  correction done once before integration, the derivative of the three-body
  state, and one classical fourth-order Runge-Kutta step.

  Arithmetic is exact over the reals. The scaled separation r / |r|^3 needs
  a square root, so it is a parameter `invCube` of the derivative, applied
  only to non-zero separations; a zero separation is the division by zero
  of the source, reported as an error.
 */
module Simulation {
  import opened Vectors
  import Planets

  /** Pixels per simulation unit. */
  const SCALE: int := 20
  /** The fixed time step. */
  const DT: real := 0.1

  datatype Error = ZeroTotalMass | SingularSeparation

  datatype Result<T> = Ok(value: T) | Err(error: Error)
  {
    predicate IsFailure()
    {
      Err?
    }

    function PropagateFailure<U>(): Result<U>
      requires Err?
    {
      Err(error)
    }

    function Extract(): T
      requires Ok?
    {
      value
    }
  }

  datatype Masses = Masses(m1: real, m2: real, m3: real)
  {
    function Total(): real
    {
      m1 + m2 + m3
    }
  }

  /** The state vector y = [pos1, vel1, pos2, vel2, pos3, vel3]. */
  datatype State = State(p1: Vec, v1: Vec, p2: Vec, v2: Vec, p3: Vec, v3: Vec)

  function AddState(a: State, b: State): State
  {
    State(Add(a.p1, b.p1), Add(a.v1, b.v1), Add(a.p2, b.p2),
          Add(a.v2, b.v2), Add(a.p3, b.p3), Add(a.v3, b.v3))
  }

  function ScaleState(c: real, a: State): State
  {
    State(Scale(c, a.p1), Scale(c, a.v1), Scale(c, a.p2),
          Scale(c, a.v2), Scale(c, a.p3), Scale(c, a.v3))
  }

  /**
    The mass-weighted sum of the velocity slots: the total momentum of a
    state, or, of a derivative, the rate at which it changes.
   */
  function Momentum(y: State, m: Masses): Vec
  {
    Add(Add(Scale(m.m1, y.v1), Scale(m.m2, y.v2)), Scale(m.m3, y.v3))
  }

  lemma MomentumOfSum(a: State, b: State, m: Masses)
    ensures Momentum(AddState(a, b), m) == Add(Momentum(a, m), Momentum(b, m))
  {
    ScaleOfSum(m.m1, a.v1, b.v1);
    ScaleOfSum(m.m2, a.v2, b.v2);
    ScaleOfSum(m.m3, a.v3, b.v3);
  }

  lemma MomentumOfScaled(c: real, a: State, m: Masses)
    ensures Momentum(ScaleState(c, a), m) == Scale(c, Momentum(a, m))
  {
    ScaleCommutes(c, m.m1, a.v1);
    ScaleCommutes(c, m.m2, a.v2);
    ScaleCommutes(c, m.m3, a.v3);
    ScaleOfSum(c, Scale(m.m1, a.v1), Scale(m.m2, a.v2));
    ScaleOfSum(c, Add(Scale(m.m1, a.v1), Scale(m.m2, a.v2)), Scale(m.m3, a.v3));
  }

  // ---------------------------------------------------------------------
  // From pygame pixels to simulation units
  // ---------------------------------------------------------------------

  /**
    A planet's integer pixel position in simulation units: each coordinate
    floor-divided by SCALE, the vertical one negated before the division.
   */
  function ToInternalPosition(p: (int, int)): (v: Vec)
    ensures v.x.Floor as real == v.x && v.y.Floor as real == v.y
    ensures SCALE as real * v.x <= p.0 as real < SCALE as real * v.x + SCALE as real
    ensures SCALE as real * v.y <= (-p.1) as real < SCALE as real * v.y + SCALE as real
  {
    Vec((p.0 / SCALE) as real, ((-p.1) / SCALE) as real)
  }

  /** A planet's velocity in simulation units: the vertical component negated, no scaling. */
  function ToInternalVelocity(v: Vec): (w: Vec)
    ensures Sub(v, w) == Vec(0.0, 2.0 * v.y)
    ensures Add(v, w) == Vec(2.0 * v.x, 0.0)
  {
    Vec(v.x, -v.y)
  }

  /**
    The floor division agrees with exact division by SCALE (and the inverse
    transform, times SCALE with the vertical axis flipped back, recovers the
    pixel position) exactly on the grid of multiples of SCALE.
   */
  lemma ExactOnGrid(p: (int, int))
    ensures var v := ToInternalPosition(p);
      (v == Vec(p.0 as real / SCALE as real, -(p.1 as real) / SCALE as real))
      <==> (p.0 % SCALE == 0 && p.1 % SCALE == 0)
    ensures var v := ToInternalPosition(p);
      (SCALE as real * v.x == p.0 as real && -(SCALE as real * v.y) == p.1 as real)
      <==> (p.0 % SCALE == 0 && p.1 % SCALE == 0)
  {
    var v := ToInternalPosition(p);
    var a, b := p.0 / SCALE, (-p.1) / SCALE;
    assert p.0 == SCALE * a + p.0 % SCALE;
    assert -p.1 == SCALE * b + (-p.1) % SCALE;
    assert p.1 % SCALE == 0 <==> (-p.1) % SCALE == 0;
  }

  /** The velocity conversion is its own inverse. */
  lemma VelocityFlipInvolution(v: Vec)
    ensures ToInternalVelocity(ToInternalVelocity(v)) == v
  {
  }

  // ---------------------------------------------------------------------
  // Centre-of-mass velocity correction
  // ---------------------------------------------------------------------

  /** vcentre: total momentum over total mass; a zero total mass divides by zero. */
  function CentreVelocity(y: State, m: Masses): (r: Result<Vec>)
    ensures r.Err? <==> m.Total() == 0.0
    ensures r.Ok? ==> Scale(m.Total(), r.value) == Momentum(y, m)
  {
    if m.Total() == 0.0 then Err(ZeroTotalMass)
    else
      var p := Momentum(y, m);
      Ok(Vec(p.x / m.Total(), p.y / m.Total()))
  }

  /** Every body's velocity minus vcentre. */
  function Recentre(y: State, m: Masses): (r: Result<State>)
    ensures r.Err? <==> m.Total() == 0.0
    ensures r.Ok? ==> r.value.p1 == y.p1 && r.value.p2 == y.p2 && r.value.p3 == y.p3
    ensures r.Ok? ==> Sub(y.v1, r.value.v1) == Sub(y.v2, r.value.v2) == Sub(y.v3, r.value.v3)
    ensures r.Ok? ==>
              && Sub(r.value.v1, r.value.v2) == Sub(y.v1, y.v2)
              && Sub(r.value.v2, r.value.v3) == Sub(y.v2, y.v3)
              && Sub(r.value.v3, r.value.v1) == Sub(y.v3, y.v1)
  {
    var c :- CentreVelocity(y, m);
    Ok(y.(v1 := Sub(y.v1, c), v2 := Sub(y.v2, c), v3 := Sub(y.v3, c)))
  }

  /** After the correction the total momentum is zero. */
  lemma RecentreZeroesMomentum(y: State, m: Masses)
    requires m.Total() != 0.0
    ensures Recentre(y, m).Ok?
    ensures Momentum(Recentre(y, m).value, m) == Zero
  {
    var c := CentreVelocity(y, m).value;
    var z := Recentre(y, m).value;
    assert Momentum(z, m) == Sub(Momentum(y, m), Scale(m.Total(), c));
  }

  // ---------------------------------------------------------------------
  // The derivative and one Runge-Kutta step
  // ---------------------------------------------------------------------

  /**
    dydt: the position slots take the velocities, the velocity slots the
    accelerations from the scaled separations r12c, r23c, r31c. Coincident
    positions make a separation zero, and its magnitude a divisor.
   */
  function Dydt(y: State, m: Masses, invCube: Vec -> Vec): (r: Result<State>)
    ensures r.Ok? <==> y.p1 != y.p2 && y.p2 != y.p3 && y.p3 != y.p1
    ensures r.Ok? ==> r.value.p1 == y.v1 && r.value.p2 == y.v2 && r.value.p3 == y.v3
    ensures r.Ok? ==> Momentum(r.value, m) == Zero
  {
    var r12, r23, r31 := Sub(y.p1, y.p2), Sub(y.p2, y.p3), Sub(y.p3, y.p1);
    if r12 == Zero || r23 == Zero || r31 == Zero then Err(SingularSeparation)
    else
      var r12c, r23c, r31c := invCube(r12), invCube(r23), invCube(r31);
      PairForcesCancel(m, r12c, r23c, r31c);
      Ok(State(y.v1, Add(Scale(-m.m2, r12c), Scale(m.m3, r31c)),
               y.v2, Add(Scale(-m.m3, r23c), Scale(m.m1, r12c)),
               y.v3, Add(Scale(-m.m1, r31c), Scale(m.m2, r23c))))
  }

  /**
    Each separation enters two accelerations with opposite mass-weighted
    signs, so the mass-weighted accelerations cancel.
   */
  lemma PairForcesCancel(m: Masses, r12c: Vec, r23c: Vec, r31c: Vec)
    ensures Add(Add(Scale(m.m1, Add(Scale(-m.m2, r12c), Scale(m.m3, r31c))),
                    Scale(m.m2, Add(Scale(-m.m3, r23c), Scale(m.m1, r12c)))),
                Scale(m.m3, Add(Scale(-m.m1, r31c), Scale(m.m2, r23c)))) == Zero
  {
  }

  /** dy = k1/6 + k2/3 + k3/3 + k4/6. */
  function Combine(k1: State, k2: State, k3: State, k4: State): State
  {
    AddState(AddState(AddState(ScaleState(1.0 / 6.0, k1), ScaleState(1.0 / 3.0, k2)),
                      ScaleState(1.0 / 3.0, k3)),
             ScaleState(1.0 / 6.0, k4))
  }

  /** The weights sum to one: four equal slopes give that slope. */
  lemma CombineConstant(k: State)
    ensures Combine(k, k, k, k) == k
  {
  }

  /**
    The increment dy of one step, or the error of the first derivative that
    fails. Every slope has momentum zero, and so has their combination.
   */
  function Increment(y: State, m: Masses, dt: real, invCube: Vec -> Vec): (r: Result<State>)
    ensures r.Ok? ==> Dydt(y, m, invCube).Ok?
    ensures r.Err? ==> r.error == SingularSeparation
    ensures r.Ok? ==> Momentum(r.value, m) == Zero
  {
    var f1 :- Dydt(y, m, invCube);
    var k1 := ScaleState(dt, f1);
    var f2 :- Dydt(AddState(y, ScaleState(1.0 / 2.0, k1)), m, invCube);
    var k2 := ScaleState(dt, f2);
    var f3 :- Dydt(AddState(y, ScaleState(1.0 / 2.0, k2)), m, invCube);
    var k3 := ScaleState(dt, f3);
    var f4 :- Dydt(AddState(y, k3), m, invCube);
    var k4 := ScaleState(dt, f4);
    ScaledSlopeMomentum(dt, f1, m);
    ScaledSlopeMomentum(dt, f2, m);
    ScaledSlopeMomentum(dt, f3, m);
    ScaledSlopeMomentum(dt, f4, m);
    CombineMomentum(k1, k2, k3, k4, m);
    Ok(Combine(k1, k2, k3, k4))
  }

  /** One iteration of the integration loop: y + dy. */
  function Rk4Step(y: State, m: Masses, dt: real, invCube: Vec -> Vec): (r: Result<State>)
    ensures r.Ok? ==> Dydt(y, m, invCube).Ok?
    ensures r.Err? ==> r.error == SingularSeparation
  {
    var dy :- Increment(y, m, dt, invCube);
    Ok(AddState(y, dy))
  }

  /**
    When the derivative takes the same value f at all four points the step
    evaluates it at, the step is exactly y + dt * f.
   */
  lemma ConstantSlopeStep(y: State, m: Masses, dt: real, invCube: Vec -> Vec, f: State)
    requires Dydt(y, m, invCube) == Ok(f)
    requires Dydt(AddState(y, ScaleState(1.0 / 2.0, ScaleState(dt, f))), m, invCube) == Ok(f)
    requires Dydt(AddState(y, ScaleState(dt, f)), m, invCube) == Ok(f)
    ensures Rk4Step(y, m, dt, invCube) == Ok(AddState(y, ScaleState(dt, f)))
  {
    var k := ScaleState(dt, f);
    CombineConstant(k);
    assert Increment(y, m, dt, invCube) == Ok(Combine(k, k, k, k));
  }

  /** A slope whose momentum is zero, scaled by dt, still has momentum zero. */
  lemma ScaledSlopeMomentum(dt: real, f: State, m: Masses)
    requires Momentum(f, m) == Zero
    ensures Momentum(ScaleState(dt, f), m) == Zero
  {
    MomentumOfScaled(dt, f, m);
  }

  /** The sum of two states of momentum zero has momentum zero. */
  lemma SumMomentum(a: State, b: State, m: Masses)
    requires Momentum(a, m) == Zero && Momentum(b, m) == Zero
    ensures Momentum(AddState(a, b), m) == Zero
  {
    MomentumOfSum(a, b, m);
  }

  /** Four slopes of momentum zero combine to an increment of momentum zero. */
  lemma CombineMomentum(k1: State, k2: State, k3: State, k4: State, m: Masses)
    requires Momentum(k1, m) == Momentum(k2, m) == Momentum(k3, m) == Momentum(k4, m) == Zero
    ensures Momentum(Combine(k1, k2, k3, k4), m) == Zero
  {
    var a := ScaleState(1.0 / 6.0, k1);
    var b := ScaleState(1.0 / 3.0, k2);
    var c := ScaleState(1.0 / 3.0, k3);
    var d := ScaleState(1.0 / 6.0, k4);
    ScaledSlopeMomentum(1.0 / 6.0, k1, m);
    ScaledSlopeMomentum(1.0 / 3.0, k2, m);
    ScaledSlopeMomentum(1.0 / 3.0, k3, m);
    ScaledSlopeMomentum(1.0 / 6.0, k4, m);
    SumMomentum(a, b, m);
    SumMomentum(AddState(a, b), c, m);
    SumMomentum(AddState(AddState(a, b), c), d, m);
  }

  /** One step leaves the total momentum unchanged. */
  lemma StepConservesMomentum(y: State, m: Masses, dt: real, invCube: Vec -> Vec)
    ensures Rk4Step(y, m, dt, invCube).Ok? ==>
              Momentum(Rk4Step(y, m, dt, invCube).value, m) == Momentum(y, m)
  {
    var r := Increment(y, m, dt, invCube);
    if r.Ok? {
      MomentumOfSum(y, r.value, m);
    }
  }

  // ---------------------------------------------------------------------
  // The spheres and the simulation object
  // ---------------------------------------------------------------------

  /** A VPython sphere, reduced to what the physics reads and writes. */
  class Sphere {
    var pos: Vec
    var vel: Vec
    var mass: real

    constructor (pos: Vec, vel: Vec, mass: real)
      ensures this.pos == pos && this.vel == vel && this.mass == mass
    {
      this.pos := pos;
      this.vel := vel;
      this.mass := mass;
    }
  }

  /**
    A body converted from a planet: its position is the grid cell of the
    pixel position (the vertical axis flipped), and flipping its velocity
    back gives the planet's velocity.
   */
  predicate ConvertedFrom(pixel: (int, int), velocity: Vec, pos: Vec, vel: Vec)
  {
    && pos.x.Floor as real == pos.x && pos.y.Floor as real == pos.y
    && SCALE as real * pos.x <= pixel.0 as real < SCALE as real * pos.x + SCALE as real
    && SCALE as real * pos.y <= (-pixel.1) as real < SCALE as real * pos.y + SCALE as real
    && ToInternalVelocity(vel) == velocity
  }

  /** The converted state of three planets, before the correction. */
  function Converted(planet1: Planets.Planet, planet2: Planets.Planet, planet3: Planets.Planet): (y: State)
    reads planet1, planet2, planet3
    ensures ConvertedFrom(planet1.Position(), planet1.velocity, y.p1, y.v1)
    ensures ConvertedFrom(planet2.Position(), planet2.velocity, y.p2, y.v2)
    ensures ConvertedFrom(planet3.Position(), planet3.velocity, y.p3, y.v3)
  {
    State(ToInternalPosition(planet1.Position()), ToInternalVelocity(planet1.velocity),
          ToInternalPosition(planet2.Position()), ToInternalVelocity(planet2.velocity),
          ToInternalPosition(planet3.Position()), ToInternalVelocity(planet3.velocity))
  }

  class Simulate {
    const sphere1: Sphere
    const sphere2: Sphere
    const sphere3: Sphere
    const dt: real

    ghost predicate Valid()
    {
      sphere1 != sphere2 && sphere2 != sphere3 && sphere3 != sphere1
    }

    function MassTriple(): Masses
      reads sphere1, sphere2, sphere3
    {
      Masses(sphere1.mass, sphere2.mass, sphere3.mass)
    }

    function StateVector(): State
      reads sphere1, sphere2, sphere3
    {
      State(sphere1.pos, sphere1.vel, sphere2.pos, sphere2.vel, sphere3.pos, sphere3.vel)
    }

    /**
      The set-up of Simulate.__init__: convert the planets to spheres and
      subtract the centre-of-mass velocity from each. The source divides by
      the total mass, so a zero total is excluded here and reported as
      ZeroTotalMass by Recentre.
     */
    constructor (planet1: Planets.Planet, planet2: Planets.Planet, planet3: Planets.Planet)
      requires planet1.mass + planet2.mass + planet3.mass != 0.0
      ensures Valid() && fresh(sphere1) && fresh(sphere2) && fresh(sphere3)
      ensures dt == DT
      ensures MassTriple() == Masses(planet1.mass, planet2.mass, planet3.mass)
      ensures Recentre(Converted(planet1, planet2, planet3), MassTriple()) == Ok(StateVector())
      ensures Momentum(StateVector(), MassTriple()) == Zero
    {
      var y := Converted(planet1, planet2, planet3);
      var m := Masses(planet1.mass, planet2.mass, planet3.mass);
      var s1 := new Sphere(y.p1, y.v1, m.m1);
      var s2 := new Sphere(y.p2, y.v2, m.m2);
      var s3 := new Sphere(y.p3, y.v3, m.m3);
      var spheres := [s1, s2, s3];
      var vcentre := CentreVelocity(y, m).value;
      for i := 0 to 3
        invariant s1.vel == if 0 < i then Sub(y.v1, vcentre) else y.v1
        invariant s2.vel == if 1 < i then Sub(y.v2, vcentre) else y.v2
        invariant s3.vel == if 2 < i then Sub(y.v3, vcentre) else y.v3
        invariant s1.pos == y.p1 && s2.pos == y.p2 && s3.pos == y.p3
        invariant s1.mass == m.m1 && s2.mass == m.m2 && s3.mass == m.m3
      {
        spheres[i].vel := Sub(spheres[i].vel, vcentre);
      }
      sphere1, sphere2, sphere3 := s1, s2, s3;
      dt := DT;
      new;
      RecentreZeroesMomentum(y, m);
    }

    /**
      One iteration of the integration loop: compute dy from the current
      state, then add each slot to its sphere's position or velocity. If a
      derivative meets coincident bodies the source stops with a division
      by zero before writing anything; here the step reports failure and
      changes nothing. Masses are never written.
     */
    method Step(invCube: Vec -> Vec) returns (ok: bool)
      requires Valid()
      modifies sphere1`pos, sphere1`vel, sphere2`pos, sphere2`vel, sphere3`pos, sphere3`vel
      ensures ok == Rk4Step(old(StateVector()), MassTriple(), dt, invCube).Ok?
      ensures ok ==> Rk4Step(old(StateVector()), MassTriple(), dt, invCube) == Ok(StateVector())
      ensures !ok ==> StateVector() == old(StateVector())
      ensures MassTriple() == old(MassTriple())
      ensures ok ==> Momentum(StateVector(), MassTriple()) == Momentum(old(StateVector()), MassTriple())
    {
      var y := StateVector();
      var r := Increment(y, MassTriple(), dt, invCube);
      if r.Err? {
        return false;
      }
      var dy := r.value;
      sphere1.pos := Add(sphere1.pos, dy.p1);
      sphere1.vel := Add(sphere1.vel, dy.v1);
      sphere2.pos := Add(sphere2.pos, dy.p2);
      sphere2.vel := Add(sphere2.vel, dy.v2);
      sphere3.pos := Add(sphere3.pos, dy.p3);
      sphere3.vel := Add(sphere3.vel, dy.v3);
      ok := true;
      StepConservesMomentum(y, MassTriple(), dt, invCube);
    }
  }
}
