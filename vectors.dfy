/**
  Two-dimensional vectors over the reals: the arithmetic the program does with
  numpy arrays of two floats (the planet's position and velocity) and with
  VPython vectors whose third coordinate stays zero (the simulation state).
 */
module Vectors {

  datatype Vec = Vec(x: real, y: real)

  const Zero := Vec(0.0, 0.0)

  function Add(a: Vec, b: Vec): Vec
  {
    Vec(a.x + b.x, a.y + b.y)
  }

  function Sub(a: Vec, b: Vec): Vec
  {
    Vec(a.x - b.x, a.y - b.y)
  }

  function Scale(c: real, a: Vec): Vec
  {
    Vec(c * a.x, c * a.y)
  }

  /** Two scalings can be applied in either order. */
  lemma ScaleCommutes(c: real, k: real, u: Vec)
    ensures Scale(k, Scale(c, u)) == Scale(c, Scale(k, u))
  {
  }

  /** Scaling distributes over a sum. */
  lemma ScaleOfSum(c: real, a: Vec, b: Vec)
    ensures Scale(c, Add(a, b)) == Add(Scale(c, a), Scale(c, b))
  {
  }
}
