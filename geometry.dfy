/** Plane vectors as the physics engine uses them (x to the right, y downwards on screen),
    and the four world-axis directions of the translation thrusters. */
module Geometry {

  datatype Vec = Vec(x: real, y: real)

  const Zero: Vec := Vec(0.0, 0.0)

  function Add(a: Vec, b: Vec): Vec { Vec(a.x + b.x, a.y + b.y) }

  function Sub(a: Vec, b: Vec): Vec { Vec(a.x - b.x, a.y - b.y) }

  function Neg(a: Vec): Vec { Vec(-a.x, -a.y) }

  function Scale(a: Vec, k: real): Vec { Vec(a.x * k, a.y * k) }

  /** Sum of a sequence of vectors, added left to right. */
  function SumVec(s: seq<Vec>): Vec
  {
    if s == [] then Zero else Add(SumVec(s[..|s| - 1]), s[|s| - 1])
  }

  /** Replacing one entry changes the sum by the difference of the new and the old entry. */
  lemma {:induction false} SumVecUpdate(s: seq<Vec>, i: nat, v: Vec)
    requires i < |s|
    ensures SumVec(s[i := v]) == Add(Sub(SumVec(s), s[i]), v)
  {
    var n := |s| - 1;
    var t := s[i := v];
    assert t[..n] == if i == n then s[..n] else s[..n][i := v];
    if i < n {
      SumVecUpdate(s[..n], i, v);
    }
  }

  lemma AddAssoc(a: Vec, b: Vec, c: Vec)
    ensures Add(Add(a, b), c) == Add(a, Add(b, c))
  {
  }

  lemma AddZero(a: Vec)
    ensures Add(a, Zero) == a
  {
  }

  lemma AddNegZero(a: Vec)
    ensures Add(a, Neg(Zero)) == a
  {
    assert Neg(Zero) == Zero;
  }

  lemma AddNegThenAdd(a: Vec, p: Vec, q: Vec)
    ensures Add(Add(a, Neg(p)), q) == Add(a, Sub(q, p))
  {
  }

  lemma AddNegThenNeg(a: Vec, p: Vec, q: Vec)
    ensures Add(Add(a, Neg(p)), Neg(q)) == Add(a, Neg(Add(p, q)))
  {
  }

  /** The four directions a translation thruster pushes in: `heading(pi * 1.5)` for w,
      `heading(pi * 0.5)` for s, `heading(pi)` for a and `heading(0)` for d. */
  datatype Direction = Up | Down | Left | Right

  /** The unit vector `(cos θ, sin θ)` of a direction, with the cosine and sine of the
      multiples of π/2 taken exactly. */
  function Unit(d: Direction): (u: Vec)
    ensures u.x * u.x + u.y * u.y == 1.0
    ensures (u.x == 0.0) <==> (d == Up || d == Down)
  {
    match d
    case Up => Vec(0.0, -1.0)
    case Down => Vec(0.0, 1.0)
    case Left => Vec(-1.0, 0.0)
    case Right => Vec(1.0, 0.0)
  }

  /** Up and Down push along the y axis only (vertical), Left and Right along x only. */
  predicate Vertical(d: Direction) { d == Up || d == Down }
}
