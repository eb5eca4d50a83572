/**
 * The three loss surfaces and the name dispatch every switch in the system
 * uses: "paraboloid", "saddle" and "rosenbrock" select their formula, and
 * any other name silently selects the paraboloid.
 */
module Surfaces {
  import opened Geometry

  /** The surface a name selects. */
  datatype Kind = Paraboloid | Saddle | Rosenbrock

  /** The switch on a function name, with its paraboloid default. */
  function KindOf(fnName: string): (k: Kind)
    ensures fnName == "saddle" <==> k == Saddle
    ensures fnName == "rosenbrock" <==> k == Rosenbrock
    ensures k == Paraboloid <==> fnName != "saddle" && fnName != "rosenbrock"
  {
    if fnName == "paraboloid" then Paraboloid
    else if fnName == "saddle" then Saddle
    else if fnName == "rosenbrock" then Rosenbrock
    else Paraboloid
  }

  /** The height of the surface at (x, y). */
  function Value(kind: Kind, x: real, y: real): real
  {
    match kind
    case Paraboloid => Sq(x) + Sq(y)
    case Saddle => Sq(x) - Sq(y)
    case Rosenbrock => Sq(1.0 - x) + 100.0 * Sq(y - Sq(x))
  }

  /** The paraboloid is never below zero and is above zero everywhere but the origin. */
  lemma ParaboloidMinimum(x: real, y: real)
    ensures Value(Paraboloid, x, y) >= 0.0
    ensures Value(Paraboloid, x, y) > 0.0 <==> x != 0.0 || y != 0.0
  {
    SquareNonNegative(x);
    SquareNonNegative(y);
    if x != 0.0 {
      SquarePositive(x);
    }
    if y != 0.0 {
      SquarePositive(y);
    }
  }

  /** The saddle is level at the origin, rises along the x axis and falls along the y axis. */
  lemma SaddleIsNotAMinimum(x: real, y: real)
    ensures Value(Saddle, 0.0, 0.0) == 0.0
    ensures x != 0.0 ==> Value(Saddle, x, 0.0) > 0.0
    ensures y != 0.0 ==> Value(Saddle, 0.0, y) < 0.0
  {
    if x != 0.0 {
      SquarePositive(x);
    }
    if y != 0.0 {
      SquarePositive(y);
    }
  }

  /** The Rosenbrock surface is never below zero and is above zero everywhere but (1, 1). */
  lemma RosenbrockMinimum(x: real, y: real)
    ensures Value(Rosenbrock, x, y) >= 0.0
    ensures Value(Rosenbrock, x, y) > 0.0 <==> x != 1.0 || y != 1.0
  {
    SquareNonNegative(1.0 - x);
    SquareNonNegative(y - Sq(x));
    if x != 1.0 {
      SquarePositive(1.0 - x);
    } else if y != 1.0 {
      assert Sq(x) == 1.0;
      SquarePositive(y - Sq(x));
    }
  }
}
