/**
  The planet record of the placement screen (planet.py): a mutable object
  holding a position, a velocity, a display radius, a mass and three flags
  that record how far the user has got in placing it. Its property setters do
  the unit conversion: a position is stored as floats and read back truncated
  to integers, a velocity is a multiple of STANDARD_VELOCITY, and radius and
  mass are multiples of their maxima with the multiplier capped at 1.
 */
module Planets {
  import opened Vectors

  const MAX_RADIUS: int := 25
  const MAX_MASS: real := 10.0
  const STANDARD_VELOCITY: real := 0.35

  /** The values __init__ gives a new planet. */
  const INITIAL_RADIUS: int := 15
  const INITIAL_MASS: real := 10.0

  /** An RGB triple; it is only carried along, never computed with. */
  type Color = (int, int, int)

  /** The three placement flags, in the order the user sets them. */
  datatype Flags = Flags(placed: bool, sized: bool, directed: bool)
  {
    /** Planet.is_ready: every initial condition has been given. */
    predicate Ready()
    {
      placed && sized && directed
    }

    /** The flags are set in order: directed implies sized implies placed. */
    predicate Ordered()
    {
      (directed ==> sized) && (sized ==> placed)
    }
  }

  const Unset := Flags(false, false, false)

  /** Python's int() on a float: truncation toward zero. */
  function Trunc(x: real): (n: int)
    ensures 0.0 <= x ==> n as real <= x < n as real + 1.0
    ensures x < 0.0 ==> n as real - 1.0 < x <= n as real
  {
    if 0.0 <= x then x.Floor else -((-x).Floor)
  }

  /** Truncating a whole number gives it back. */
  lemma TruncWhole(n: int)
    ensures Trunc(n as real) == n
  {
    if 0 <= n {
      assert (n as real).Floor == n;
    } else {
      assert (-(n as real)).Floor == -n;
    }
  }

  /** The cap both size setters put on their multiplier. */
  function Cap(multiplier: real): (c: real)
    ensures c <= 1.0
    ensures multiplier <= 1.0 ==> c == multiplier
    ensures 1.0 <= multiplier ==> c == 1.0
  {
    if multiplier > 1.0 then 1.0 else multiplier
  }

  /** The radius the radius setter stores for a multiplier. */
  function RadiusFor(multiplier: real): (r: int)
    ensures r <= MAX_RADIUS
    ensures 0.0 <= multiplier ==> 0 <= r
    ensures 1.0 <= multiplier ==> r == MAX_RADIUS
    ensures 0.0 <= multiplier <= 1.0 ==>
              r as real <= multiplier * MAX_RADIUS as real < r as real + 1.0
  {
    Trunc(Cap(multiplier) * MAX_RADIUS as real)
  }

  /** The mass the mass setter stores for a multiplier: capped above, not below. */
  function MassFor(multiplier: real): (m: real)
    ensures m <= MAX_MASS
    ensures 0.0 <= multiplier ==> 0.0 <= m
    ensures 1.0 <= multiplier ==> m == MAX_MASS
    ensures m == 0.0 <==> multiplier == 0.0
  {
    Cap(multiplier) * MAX_MASS
  }

  class Planet {
    const color: Color
    /** The stored position (`_position`), as floats. */
    var pos: Vec
    var velocity: Vec
    var radius: int
    var mass: real
    var isPlaced: bool
    var isSized: bool
    var isDirected: bool

    /** The state __init__ leaves a planet in. */
    predicate Initial()
      reads this
    {
      && pos == Zero && velocity == Zero
      && radius == INITIAL_RADIUS && mass == INITIAL_MASS
      && Status() == Unset
    }

    constructor (color: Color)
      ensures this.color == color
      ensures Initial()
      ensures !IsReady()
    {
      this.color := color;
      pos := Zero;
      velocity := Zero;
      radius := INITIAL_RADIUS;
      mass := INITIAL_MASS;
      isPlaced := false;
      isSized := false;
      isDirected := false;
    }

    /** The position getter: each stored coordinate truncated toward zero. */
    function Position(): (p: (int, int))
      reads this
      ensures 0.0 <= pos.x ==> 0 <= p.0 && p.0 as real <= pos.x < p.0 as real + 1.0
      ensures pos.x < 0.0 ==> p.0 <= 0 && p.0 as real - 1.0 < pos.x <= p.0 as real
      ensures 0.0 <= pos.y ==> 0 <= p.1 && p.1 as real <= pos.y < p.1 as real + 1.0
      ensures pos.y < 0.0 ==> p.1 <= 0 && p.1 as real - 1.0 < pos.y <= p.1 as real
    {
      (Trunc(pos.x), Trunc(pos.y))
    }

    /** The position setter, given the integer coordinates the caller passes. */
    method SetPosition(value: (int, int))
      modifies this`pos
      ensures pos == Vec(value.0 as real, value.1 as real)
      ensures Position() == value
    {
      pos := Vec(value.0 as real, pos.y);
      pos := Vec(pos.x, value.1 as real);
      TruncWhole(value.0);
      TruncWhole(value.1);
    }

    /** The velocity setter: STANDARD_VELOCITY times each multiplier. */
    method SetVelocity(multipliers: Vec)
      modifies this`velocity
      ensures velocity == Vec(STANDARD_VELOCITY * multipliers.x, STANDARD_VELOCITY * multipliers.y)
    {
      velocity := Vec(STANDARD_VELOCITY * multipliers.x, velocity.y);
      velocity := Vec(velocity.x, STANDARD_VELOCITY * multipliers.y);
    }

    /** The radius setter: caps the multiplier at 1, stores int(multiplier * MAX_RADIUS). */
    method SetRadius(multiplier: real)
      modifies this`radius
      ensures radius == RadiusFor(multiplier)
      ensures 0.0 <= multiplier ==> 0 <= radius <= MAX_RADIUS
    {
      var m := multiplier;
      if m > 1.0 {
        m := 1.0;
      }
      radius := Trunc(m * MAX_RADIUS as real);
    }

    /** The mass setter: caps the multiplier at 1, stores multiplier * MAX_MASS. */
    method SetMass(multiplier: real)
      modifies this`mass
      ensures mass == MassFor(multiplier)
      ensures mass <= MAX_MASS
    {
      var m := multiplier;
      if m > 1.0 {
        m := 1.0;
      }
      mass := m * MAX_MASS;
    }

    function Status(): Flags
      reads this
    {
      Flags(isPlaced, isSized, isDirected)
    }

    /** Planet.is_ready. */
    predicate IsReady()
      reads this
      ensures IsReady() <==> isPlaced && isSized && isDirected
    {
      Status().Ready()
    }
  }
}
