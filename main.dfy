/**
  The placement protocol of the pygame front end (main.py). The program keeps
  a list of at most three planets. On every frame, while the list is not
  ready, the last planet follows the mouse in its current stage; a planet is
  appended once the last one is ready. Every mouse click sets the first unset
  flag of the last planet, in the order placed, sized, directed. The list is
  ready, and the simulation may start, when it holds three planets and the
  last one is ready.

  The protocol is stated twice: as pure functions on the planets' flags,
  about which the lemmas are proved, and as methods on the list of Planet
  objects whose contracts tie them to those functions.
 */
module Placement {
  import opened Vectors
  import opened Planets

  const MAX_VECTOR: real := 200.0

  // ---------------------------------------------------------------------
  // The protocol on flags
  // ---------------------------------------------------------------------

  /** is_ready(planets): three planets, and the last one ready. */
  predicate IsReady(s: seq<Flags>)
    ensures |s| != 3 ==> !IsReady(s)
    ensures IsReady(s) ==> Count(s[2]) == 3
    ensures |s| == 3 && Count(s[2]) == 3 ==> IsReady(s)
  {
    |s| == 3 && s[|s| - 1].Ready()
  }

  /** How many of a planet's flags are set. */
  function Count(f: Flags): nat
  {
    (if f.placed then 1 else 0) + (if f.sized then 1 else 0) + (if f.directed then 1 else 0)
  }

  /** How many flags are set over the whole list. */
  function Total(s: seq<Flags>): nat
  {
    if s == [] then 0 else Total(s[..|s| - 1]) + Count(s[|s| - 1])
  }

  /**
    What a click does to the last planet's flags: it sets the first flag
    still false, in the order placed, sized, directed, and nothing else.
   */
  function Click(f: Flags): (g: Flags)
    ensures f.placed ==> g.placed
    ensures f.sized ==> g.sized
    ensures f.directed ==> g.directed
    ensures f.Ready() ==> g == f
    ensures !f.Ready() ==> Count(g) == Count(f) + 1
    ensures !f.placed ==> g.placed
    ensures f.placed && !f.sized ==> g.sized
    ensures f.placed && f.sized && !f.directed ==> g.directed
    ensures f.Ordered() ==> g.Ordered()
  {
    if !f.placed then f.(placed := true)
    else if !f.sized then f.(sized := true)
    else if !f.directed then f.(directed := true)
    else f
  }

  /** The MOUSEBUTTONDOWN branch on the list's flags. */
  function AfterClick(s: seq<Flags>): (t: seq<Flags>)
    requires |s| > 0
    ensures |t| == |s|
    ensures t[..|s| - 1] == s[..|s| - 1]
    ensures IsReady(s) ==> t == s
    ensures !IsReady(s) ==> t[|t| - 1] == Click(s[|s| - 1])
  {
    if IsReady(s) then s else s[..|s| - 1] + [Click(s[|s| - 1])]
  }

  /** The append step of a frame on the list's flags. */
  function AfterFrame(s: seq<Flags>): (t: seq<Flags>)
    requires |s| > 0
    ensures |t| > |s| <==> !IsReady(s) && s[|s| - 1].Ready()
    ensures |t| > |s| ==> t == s + [Unset]
    ensures |t| <= |s| ==> t == s
  {
    if !IsReady(s) && s[|s| - 1].Ready() then s + [Unset] else s
  }

  /**
    What the protocol keeps true of the list: one to three planets, each
    with its flags set in order, and every planet before the last ready.
   */
  predicate Valid(s: seq<Flags>)
  {
    && 1 <= |s| <= 3
    && (forall i :: 0 <= i < |s| ==> s[i].Ordered())
    && (forall i :: 0 <= i < |s| - 1 ==> s[i].Ready())
  }

  lemma StartValid()
    ensures Valid([Unset]) && !IsReady([Unset]) && Total([Unset]) == 0
  {
  }

  /** Three clicks make a new planet ready; two do not. */
  lemma ThreeClicks()
    ensures !Click(Click(Unset)).Ready()
    ensures Click(Click(Click(Unset))).Ready()
  {
  }

  lemma AfterClickValid(s: seq<Flags>)
    requires Valid(s)
    ensures Valid(AfterClick(s))
  {
    var t := AfterClick(s);
    forall i | 0 <= i < |t|
      ensures t[i].Ordered()
    {
      if i < |s| - 1 {
        assert t[i] == t[..|s| - 1][i];
      }
    }
    forall i | 0 <= i < |t| - 1
      ensures t[i].Ready()
    {
      assert t[i] == t[..|s| - 1][i];
    }
  }

  lemma AfterFrameValid(s: seq<Flags>)
    requires Valid(s)
    ensures Valid(AfterFrame(s))
  {
  }

  /** is_ready looks only at the last planet; in a valid list that means all three. */
  lemma ReadyMeansAllReady(s: seq<Flags>)
    requires Valid(s)
    ensures IsReady(s) <==> |s| == 3 && forall i :: 0 <= i < |s| ==> s[i].Ready()
  {
  }

  lemma {:induction false} TotalOfReady(s: seq<Flags>)
    requires forall i :: 0 <= i < |s| ==> s[i].Ready()
    ensures Total(s) == 3 * |s|
  {
    if s != [] {
      TotalOfReady(s[..|s| - 1]);
    }
  }

  lemma TotalOfValid(s: seq<Flags>)
    requires Valid(s)
    ensures Total(s) == 3 * (|s| - 1) + Count(s[|s| - 1])
  {
    TotalOfReady(s[..|s| - 1]);
  }

  /**
    A valid list is ready exactly when all nine flags are set, and it never
    has more than nine set.
   */
  lemma ReadyIffNineFlags(s: seq<Flags>)
    requires Valid(s)
    ensures Total(s) <= 9
    ensures IsReady(s) <==> Total(s) == 9
  {
    TotalOfValid(s);
  }

  /**
    One pass of the main loop in which the user clicks once (the append
    step, then the click) sets exactly one more flag while the list is not
    ready: nine clicks after the start make it ready.
   */
  lemma ClickMakesProgress(s: seq<Flags>)
    requires Valid(s) && !IsReady(s)
    ensures Valid(AfterClick(AfterFrame(s)))
    ensures Total(AfterClick(AfterFrame(s))) == Total(s) + 1
  {
    var u := AfterFrame(s);
    AfterFrameValid(s);
    AfterClickValid(u);
    assert !IsReady(u);
    var t := AfterClick(u);
    assert t[..|u| - 1] == u[..|u| - 1];
    assert t == t[..|t| - 1] + [t[|t| - 1]];
    if |u| > |s| {
      assert u[..|u| - 1] == s;
      assert Total(u) == Total(s);
    }
  }

  // ---------------------------------------------------------------------
  // The per-frame set_* helpers
  // ---------------------------------------------------------------------

  /** The multiplier set_size feeds to both size setters. */
  function SizeMultiplier(length: real): (r: real)
    ensures r * MAX_VECTOR == length
  {
    length / MAX_VECTOR
  }

  /** The multipliers set_initial_velocity feeds to the velocity setter. */
  function VelocityMultipliers(position: (int, int), mouse: (int, int)): (r: Vec)
    ensures Scale(MAX_VECTOR, r) == Vec((mouse.0 - position.0) as real, (mouse.1 - position.1) as real)
  {
    Vec((mouse.0 - position.0) as real / MAX_VECTOR, (mouse.1 - position.1) as real / MAX_VECTOR)
  }

  /**
    set_size gives the planet a mass in [0, MAX_MASS] and a radius in
    [0, MAX_RADIUS], the radius being int(2.5 * mass); both reach their
    maximum from a drag of MAX_VECTOR pixels on, and the mass is zero
    exactly when the drag has length zero.
   */
  lemma SizeFromDrag(length: real)
    requires 0.0 <= length
    ensures var mass, radius := MassFor(SizeMultiplier(length)), RadiusFor(SizeMultiplier(length));
      && 0.0 <= mass <= MAX_MASS
      && 0 <= radius <= MAX_RADIUS
      && radius == Trunc(mass * (MAX_RADIUS as real / MAX_MASS))
      && (MAX_VECTOR <= length ==> mass == MAX_MASS && radius == MAX_RADIUS)
      && (mass == 0.0 <==> length == 0.0)
  {
    var c := Cap(SizeMultiplier(length));
    assert c * MAX_RADIUS as real == (c * MAX_MASS) * (MAX_RADIUS as real / MAX_MASS);
  }

  /**
    set_initial_velocity makes the velocity STANDARD_VELOCITY times the
    offset from planet to mouse over MAX_VECTOR, zero exactly when the
    mouse is on the planet's centre.
   */
  lemma VelocityFromDrag(position: (int, int), mouse: (int, int))
    ensures var m := VelocityMultipliers(position, mouse);
      && MAX_VECTOR * (STANDARD_VELOCITY * m.x) == STANDARD_VELOCITY * (mouse.0 - position.0) as real
      && MAX_VECTOR * (STANDARD_VELOCITY * m.y) == STANDARD_VELOCITY * (mouse.1 - position.1) as real
      && (Vec(STANDARD_VELOCITY * m.x, STANDARD_VELOCITY * m.y) == Zero <==> position == mouse)
  {
    var m := VelocityMultipliers(position, mouse);
    if STANDARD_VELOCITY * m.x == 0.0 && STANDARD_VELOCITY * m.y == 0.0 {
      assert m.x == 0.0 && m.y == 0.0;
    }
  }

  // ---------------------------------------------------------------------
  // The protocol on Planet objects
  // ---------------------------------------------------------------------

  /** The flags of every planet of the list, in order. */
  function Statuses(planets: seq<Planet>): (s: seq<Flags>)
    reads planets
    ensures |s| == |planets|
    ensures forall i :: 0 <= i < |s| ==> s[i] == planets[i].Status()
  {
    seq(|planets|, i requires 0 <= i < |planets| reads planets => planets[i].Status())
  }

  function Last(planets: seq<Planet>): Planet
    requires |planets| > 0
  {
    planets[|planets| - 1]
  }

  /** No planet occurs twice in the list: every one was made by its own constructor call. */
  predicate Distinct(planets: seq<Planet>)
  {
    forall i, j :: 0 <= i < j < |planets| ==> planets[i] != planets[j]
  }

  method SetInitialPosition(p: Planet, mouse: (int, int))
    modifies p`pos
    ensures p.pos == Vec(mouse.0 as real, mouse.1 as real)
    ensures p.Position() == mouse
  {
    p.SetPosition(mouse);
  }

  /**
    `length` stands for math.hypot of the planet's position minus the
    mouse's, which the caller computes; the mouse position itself is then
    only needed by the display code.
   */
  method SetSize(p: Planet, length: real)
    modifies p`radius, p`mass
    ensures p.radius == RadiusFor(SizeMultiplier(length))
    ensures p.mass == MassFor(SizeMultiplier(length))
  {
    var multiplier := length / MAX_VECTOR;
    p.SetRadius(multiplier);
    p.SetMass(multiplier);
  }

  method SetInitialVelocity(p: Planet, mouse: (int, int))
    modifies p`velocity
    ensures var m := VelocityMultipliers(p.Position(), mouse);
      p.velocity == Vec(STANDARD_VELOCITY * m.x, STANDARD_VELOCITY * m.y)
  {
    var position := p.Position();
    var xVector := mouse.0 - position.0;
    var yVector := mouse.1 - position.1;
    var xMultiplier := xVector as real / MAX_VECTOR;
    var yMultiplier := yVector as real / MAX_VECTOR;
    p.SetVelocity(Vec(xMultiplier, yMultiplier));
  }

  /**
    What set_initial_conditions does to a planet between two states: it
    updates the attribute of the planet's current stage only (position
    while not placed, size while not sized, velocity while not directed)
    and never touches a flag.
   */
  twostate predicate ConditionsSet(p: Planet, mouse: (int, int), length: real)
    reads p
  {
    && p.Status() == old(p.Status())
    && if !old(p.isPlaced) then
         && p.pos == Vec(mouse.0 as real, mouse.1 as real) && p.Position() == mouse
         && p.velocity == old(p.velocity) && p.radius == old(p.radius) && p.mass == old(p.mass)
       else if !old(p.isSized) then
         && p.pos == old(p.pos) && p.velocity == old(p.velocity)
         && p.radius == RadiusFor(SizeMultiplier(length))
         && p.mass == MassFor(SizeMultiplier(length))
       else if !old(p.isDirected) then
         && p.pos == old(p.pos) && p.radius == old(p.radius) && p.mass == old(p.mass)
         && var m := VelocityMultipliers(old(p.Position()), mouse);
            p.velocity == Vec(STANDARD_VELOCITY * m.x, STANDARD_VELOCITY * m.y)
       else
         && p.pos == old(p.pos) && p.velocity == old(p.velocity)
         && p.radius == old(p.radius) && p.mass == old(p.mass)
  }

  /**
    set_initial_conditions. Its caller only passes a planet that is not
    ready; with a ready one the source would reach its message display with
    no message set. `length` matters only in the sizing stage.
   */
  method SetInitialConditions(p: Planet, mouse: (int, int), length: real)
    requires !p.IsReady()
    modifies p`pos, p`radius, p`mass, p`velocity
    ensures ConditionsSet(p, mouse, length)
  {
    if !p.isPlaced {
      SetInitialPosition(p, mouse);
    } else if !p.isSized {
      SetSize(p, length);
    } else if !p.isDirected {
      SetInitialVelocity(p, mouse);
    }
  }

  /**
    The MOUSEBUTTONDOWN handler: unless the list is ready, set the first
    unset flag of the last planet. No other planet changes.
   */
  method HandleClick(planets: seq<Planet>)
    requires |planets| > 0 && Distinct(planets)
    modifies Last(planets)`isPlaced, Last(planets)`isSized, Last(planets)`isDirected
    ensures Statuses(planets) == AfterClick(old(Statuses(planets)))
    ensures Valid(old(Statuses(planets))) ==> Valid(Statuses(planets))
  {
    ghost var before := Statuses(planets);
    if !IsReady(Statuses(planets)) {
      var last := planets[|planets| - 1];
      if !last.isPlaced {
        last.isPlaced := true;
      } else if !last.isSized {
        last.isSized := true;
      } else if !last.isDirected {
        last.isDirected := true;
      }
    }
    assert Statuses(planets) == AfterClick(before);
    if Valid(before) {
      AfterClickValid(before);
    }
  }

  /**
    The placement part of one frame of the main loop: while the list is not
    ready, either the last planet takes the initial condition of its stage
    from the mouse, or, once it is ready, a new planet is appended.
    `length` stands for math.hypot of the last planet's position minus the
    mouse's and matters only in its sizing stage.
   */
  method Frame(planets: seq<Planet>, mouse: (int, int), length: real, color: Color)
    returns (next: seq<Planet>)
    requires |planets| > 0 && Distinct(planets)
    modifies planets[|planets| - 1]
    ensures Statuses(next) == AfterFrame(old(Statuses(planets)))
    ensures Valid(old(Statuses(planets))) ==> Valid(Statuses(next))
    ensures Distinct(next)
    ensures |planets| <= |next| <= |planets| + 1 && next[..|planets|] == planets
    ensures |next| > |planets| ==>
              fresh(next[|planets|]) && next[|planets|].Initial() && next[|planets|].color == color
    ensures var last := planets[|planets| - 1];
      if !IsReady(old(Statuses(planets))) && !old(last.IsReady())
      then ConditionsSet(last, mouse, length)
      else unchanged(last)
  {
    next := planets;
    if !IsReady(Statuses(planets)) {
      var last := planets[|planets| - 1];
      if !last.IsReady() {
        SetInitialConditions(last, mouse, length);
      } else {
        var p := new Planet(color);
        next := planets + [p];
      }
    }
    if Valid(old(Statuses(planets))) {
      AfterFrameValid(old(Statuses(planets)));
    }
  }
}
