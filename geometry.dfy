/** The optional value used where the source has `null` or `undefined`. */
module Wrappers {
  datatype Option<+T> = None | Some(value: T)
}

/**
 * Points, surface grids and the small pieces of algebra shared by the
 * backend and the two front ends. Coordinates are exact reals: the model
 * abstracts JavaScript doubles and states only algebraic facts.
 */
module Geometry {

  /** A point of the plane, `[x, y]` in the source. */
  datatype Vec2 = Vec2(x: real, y: real)

  /** A point on a surface, `[x, y, z]` in the source. */
  datatype Vec3 = Vec3(x: real, y: real, z: real)

  /** The data a surface trace is drawn from: two axes and `z[i][j]` over them. */
  datatype Surface = Surface(x: seq<real>, y: seq<real>, z: seq<seq<real>>)

  /** The square of `a`: `a * a` or `a ** 2` in the source. */
  function Sq(a: real): real
  {
    a * a
  }

  /** A square is never below zero. */
  lemma SquareNonNegative(a: real)
    ensures Sq(a) >= 0.0
  {
    if a < 0.0 {
      assert (-a) * (-a) >= 0.0;
    }
  }

  /** The square of anything but zero is above zero: its product with the square of `1 / a` is one. */
  lemma SquarePositive(a: real)
    requires a != 0.0
    ensures Sq(a) > 0.0
  {
    SquareNonNegative(a);
    var b := 1.0 / a;
    assert a * b == 1.0;
    assert Sq(a) * Sq(b) == 1.0;
  }

  /** Squared distance to the origin. */
  function Norm2(p: Vec2): real
  {
    Sq(p.x) + Sq(p.y)
  }

  /** `c` raised to the `k`-th power. */
  function Pow(c: real, k: nat): real
  {
    if k == 0 then 1.0 else c * Pow(c, k - 1)
  }
}
