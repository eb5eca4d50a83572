/**
 * The backend: the gradient of each named surface and the
 * `/gradient-descent` handler that runs a fixed number of descent steps.
 */
module Server {
  import opened Geometry
  import opened Surfaces

  /** Gradient of the surface `kind` at `(x, y)`, with the backend's own formulas. */
  function Gradient(kind: Kind, x: real, y: real): Vec2
  {
    match kind
    case Paraboloid => Vec2(2.0 * x, 2.0 * y)
    case Saddle => Vec2(2.0 * x, -2.0 * y)
    case Rosenbrock => Vec2(-400.0 * x * (y - Sq(x)) - 2.0 * (1.0 - x), 200.0 * (y - Sq(x)))
  }

  /**
   * Gradient of the surface called `fnName` at `(x, y)`. Only three names
   * are known; any other name is served the paraboloid's gradient.
   */
  function GetGradient(fnName: string, x: real, y: real): Vec2
  {
    Gradient(KindOf(fnName), x, y)
  }

  /** What each name is served, including the fallback for a name the backend does not know. */
  lemma GetGradientByName(fnName: string, x: real, y: real)
    ensures fnName == "paraboloid" ==> GetGradient(fnName, x, y) == Vec2(2.0 * x, 2.0 * y)
    ensures fnName == "saddle" ==> GetGradient(fnName, x, y) == Vec2(2.0 * x, -2.0 * y)
    ensures fnName == "rosenbrock" ==>
      GetGradient(fnName, x, y) == Vec2(-400.0 * x * (y - x * x) - 2.0 * (1.0 - x), 200.0 * (y - x * x))
    ensures fnName != "saddle" && fnName != "rosenbrock" ==>
      GetGradient(fnName, x, y) == GetGradient("paraboloid", x, y)
  {
  }

  /** Along y every surface is a quadratic, so the central difference with any step h is exact. */
  lemma GradientYIsCentralDifference(kind: Kind, x: real, y: real, h: real)
    ensures Value(kind, x, y + h) - Value(kind, x, y - h) == 2.0 * h * Gradient(kind, x, y).y
  {
    match kind
    case Paraboloid =>
      assert Sq(y + h) - Sq(y - h) == 4.0 * h * y;
    case Saddle =>
      assert Sq(y + h) - Sq(y - h) == 4.0 * h * y;
    case Rosenbrock =>
      var d := y - Sq(x);
      assert Sq(y + h - Sq(x)) - Sq(y - h - Sq(x)) == 4.0 * h * d by {
        assert y + h - Sq(x) == d + h;
        assert y - h - Sq(x) == d - h;
        assert Sq(d + h) - Sq(d - h) == 4.0 * h * d;
      }
  }

  /** Along x the paraboloid is a quadratic, so the central difference with any step h is exact. */
  lemma ParaboloidSlopeX(x: real, y: real, h: real)
    ensures Value(Paraboloid, x + h, y) - Value(Paraboloid, x - h, y) == 2.0 * h * Gradient(Paraboloid, x, y).x
  {
    assert Sq(x + h) - Sq(x - h) == 4.0 * h * x;
  }

  /** Along x the saddle is a quadratic, so the central difference with any step h is exact. */
  lemma SaddleSlopeX(x: real, y: real, h: real)
    ensures Value(Saddle, x + h, y) - Value(Saddle, x - h, y) == 2.0 * h * Gradient(Saddle, x, y).x
  {
    assert Sq(x + h) - Sq(x - h) == 4.0 * h * x;
  }

  /**
   * The Rosenbrock surface is a quartic in x: its central difference along x
   * is the backend's x gradient up to the cubic term 800·x·h³.
   */
  lemma RosenbrockSlopeX(x: real, y: real, h: real)
    ensures Value(Rosenbrock, x + h, y) - Value(Rosenbrock, x - h, y)
      == 2.0 * h * (-400.0 * x * (y - Sq(x)) - 2.0 * (1.0 - x)) + 800.0 * x * h * h * h
  {
    var p, m := y - Sq(x + h), y - Sq(x - h);
    assert Sq(1.0 - (x + h)) - Sq(1.0 - (x - h)) == -4.0 * h * (1.0 - x);
    assert p == y - Sq(x) - 2.0 * x * h - h * h;
    assert m == y - Sq(x) + 2.0 * x * h - h * h;
    assert Sq(p) - Sq(m) == (p - m) * (p + m);
    assert p - m == -4.0 * x * h;
    assert p + m == 2.0 * (y - Sq(x)) - 2.0 * h * h;
  }

  /** The Rosenbrock gradient vanishes at (1, 1) and nowhere else. */
  lemma RosenbrockCriticalPoint(x: real, y: real)
    ensures Gradient(Rosenbrock, x, y) == Vec2(0.0, 0.0) <==> x == 1.0 && y == 1.0
  {
    if Gradient(Rosenbrock, x, y) == Vec2(0.0, 0.0) {
      assert y - Sq(x) == 0.0;
      assert x * (y - Sq(x)) == 0.0;
    }
  }

  /** One descent step on the surface `kind`: the point moves against the gradient, scaled by `lr`. */
  function Step(kind: Kind, lr: real, p: Vec2): Vec2
  {
    Vec2(p.x - lr * Gradient(kind, p.x, p.y).x, p.y - lr * Gradient(kind, p.x, p.y).y)
  }

  /** The point reached after `k` steps from `start`. */
  function Iterate(kind: Kind, lr: real, start: Vec2, k: nat): Vec2
  {
    if k == 0 then start else Step(kind, lr, Iterate(kind, lr, start, k - 1))
  }

  /** `getGradient` with the requested name fixed, as the handler's loop calls it. */
  function GradientOf(fnName: string): (real, real) -> Vec2
  {
    (x: real, y: real) => GetGradient(fnName, x, y)
  }

  /** The loop body's update: subtract `lr` times the gradient `grad` gives at `p`. */
  function Advance(grad: (real, real) -> Vec2, lr: real, p: Vec2): Vec2
  {
    Vec2(p.x - lr * grad(p.x, p.y).x, p.y - lr * grad(p.x, p.y).y)
  }

  /** The start point followed by the points of the first `n` updates. */
  function Path(grad: (real, real) -> Vec2, lr: real, start: Vec2, n: nat): (r: seq<Vec2>)
    ensures |r| == n + 1
  {
    if n == 0 then [start]
    else
      var prev := Path(grad, lr, start, n - 1);
      prev + [Advance(grad, lr, prev[n - 1])]
  }

  /** How many times the handler's loop body runs for a requested `iterations`. */
  function StepCount(iterations: int): (n: nat)
    ensures iterations <= 0 ==> n == 0
    ensures iterations >= 0 ==> n == iterations
  {
    if iterations > 0 then iterations else 0
  }

  /** The points the handler answers with, for the surface named `fnName`. */
  function Trajectory(fnName: string, lr: real, iterations: int, start: Vec2): seq<Vec2>
  {
    Path(GradientOf(fnName), lr, start, StepCount(iterations))
  }

  /** Every point of a path but the first is one update from the point before it. */
  lemma {:induction false} PathRecurrence(grad: (real, real) -> Vec2, lr: real, start: Vec2, n: nat)
    ensures Path(grad, lr, start, n)[0] == start
    ensures forall k :: 0 <= k < n ==> Path(grad, lr, start, n)[k + 1] == Advance(grad, lr, Path(grad, lr, start, n)[k])
  {
    if n > 0 {
      PathRecurrence(grad, lr, start, n - 1);
    }
  }

  /** `GradientOf(fnName)` gives what `getGradient` gives for `fnName`, at every point. */
  lemma GradientOfIsGetGradient(fnName: string)
    ensures forall x: real, y: real :: GradientOf(fnName)(x, y) == Gradient(KindOf(fnName), x, y)
  {
  }

  /** An update with a gradient function that agrees with `kind`'s gradient at `p` is `kind`'s `Step`. */
  lemma AdvanceIsStep(grad: (real, real) -> Vec2, kind: Kind, lr: real, p: Vec2)
    requires grad(p.x, p.y) == Gradient(kind, p.x, p.y)
    ensures Advance(grad, lr, p) == Step(kind, lr, p)
  {
  }

  /** Point k of the path for a named surface is the point after `k` steps from the start. */
  lemma {:induction false} PathAt(fnName: string, lr: real, start: Vec2, n: nat)
    ensures forall k :: 0 <= k <= n ==> Path(GradientOf(fnName), lr, start, n)[k] == Iterate(KindOf(fnName), lr, start, k)
  {
    if n > 0 {
      PathAt(fnName, lr, start, n - 1);
      GradientOfIsGetGradient(fnName);
      AdvanceIsStep(GradientOf(fnName), KindOf(fnName), lr, Iterate(KindOf(fnName), lr, start, n - 1));
    }
  }

  /**
   * The trajectory starts at the start point, has one point more than the
   * requested iteration count (only the start point when that count is not
   * positive), and each point is the one before it minus `lr` times the
   * gradient `getGradient` gives for `fnName` there.
   */
  lemma TrajectoryShape(fnName: string, lr: real, iterations: int, start: Vec2)
    ensures var t := Trajectory(fnName, lr, iterations, start);
      && |t| == StepCount(iterations) + 1
      && t[0] == start
      && (iterations <= 0 ==> t == [start])
      && (iterations >= 0 ==> |t| == iterations + 1)
      && forall k :: 0 <= k < |t| - 1 ==> t[k + 1] == Advance(GradientOf(fnName), lr, t[k])
  {
    PathRecurrence(GradientOf(fnName), lr, start, StepCount(iterations));
  }

  /** The JSON body of a `/gradient-descent` request. */
  datatype Request = Request(fnName: string, learningRate: real, iterations: int, startPoint: Vec2)

  /** The JSON body of the answer. */
  datatype Response = Response(points: seq<Vec2>, converged: bool)

  /**
   * The handler's loop: starting from `start`, run the update `iterations`
   * times (not at all when that is not positive) and record every point.
   */
  method Descend(grad: (real, real) -> Vec2, lr: real, iterations: int, start: Vec2) returns (points: seq<Vec2>)
    ensures points == Path(grad, lr, start, StepCount(iterations))
  {
    var x, y := start.x, start.y;
    points := [Vec2(x, y)];
    var i := 0;
    while i < iterations
      invariant 0 <= i <= StepCount(iterations)
      invariant points == Path(grad, lr, start, i)
      invariant points[i] == Vec2(x, y)
    {
      var g := grad(x, y);
      assert Advance(grad, lr, points[i]) == Vec2(x - lr * g.x, y - lr * g.y);
      x := x - lr * g.x;
      y := y - lr * g.y;
      points := points + [Vec2(x, y)];
      i := i + 1;
    }
  }

  /**
   * The `/gradient-descent` handler: run the loop with the gradient of the
   * requested surface. No argument is checked, and `converged` is reported
   * true whatever the points are.
   */
  method GradientDescent(req: Request) returns (res: Response)
    ensures res.points == Trajectory(req.fnName, req.learningRate, req.iterations, req.startPoint)
    ensures res.converged
  {
    var points := Descend(GradientOf(req.fnName), req.learningRate, req.iterations, req.startPoint);
    res := Response(points, true);
  }

  /** The trajectory for the front end's defaults, for zero and one step. */
  lemma DefaultStartExamples()
    ensures Trajectory("paraboloid", 0.1, 0, Vec2(3.0, 3.0)) == [Vec2(3.0, 3.0)]
    ensures Trajectory("paraboloid", 0.1, 1, Vec2(3.0, 3.0)) == [Vec2(3.0, 3.0), Vec2(2.4, 2.4)]
  {
    assert KindOf("paraboloid") == Paraboloid;
    PathAt("paraboloid", 0.1, Vec2(3.0, 3.0), 1);
    assert Iterate(Paraboloid, 0.1, Vec2(3.0, 3.0), 1) == Vec2(2.4, 2.4);
  }

  /** One paraboloid step scales the point by c = 1 - 2·lr. */
  lemma ParaboloidStep(lr: real, c: real, p: Vec2)
    requires c == 1.0 - 2.0 * lr
    ensures Step(Paraboloid, lr, p) == Vec2(c * p.x, c * p.y)
  {
  }

  /** One saddle step scales x by a = 1 - 2·lr and y by b = 1 + 2·lr. */
  lemma SaddleStep(lr: real, a: real, b: real, p: Vec2)
    requires a == 1.0 - 2.0 * lr && b == 1.0 + 2.0 * lr
    ensures Step(Saddle, lr, p) == Vec2(a * p.x, b * p.y)
  {
  }

  /** Regrouping a product of three factors. */
  lemma Regroup(c: real, a: real, s: real)
    ensures c * (a * s) == (c * a) * s
  {
  }

  /** On the paraboloid, the x coordinate of point k is the start's scaled by c^k. */
  lemma {:induction false} ParaboloidIterateX(lr: real, c: real, start: Vec2, k: nat)
    requires c == 1.0 - 2.0 * lr
    ensures Iterate(Paraboloid, lr, start, k).x == Pow(c, k) * start.x
  {
    if k > 0 {
      ParaboloidIterateX(lr, c, start, k - 1);
      ParaboloidStep(lr, c, Iterate(Paraboloid, lr, start, k - 1));
      Regroup(c, Pow(c, k - 1), start.x);
    }
  }

  /** On the paraboloid, the y coordinate of point k is the start's scaled by c^k. */
  lemma {:induction false} ParaboloidIterateY(lr: real, c: real, start: Vec2, k: nat)
    requires c == 1.0 - 2.0 * lr
    ensures Iterate(Paraboloid, lr, start, k).y == Pow(c, k) * start.y
  {
    if k > 0 {
      ParaboloidIterateY(lr, c, start, k - 1);
      ParaboloidStep(lr, c, Iterate(Paraboloid, lr, start, k - 1));
      Regroup(c, Pow(c, k - 1), start.y);
    }
  }

  /** On the paraboloid, point k is the start point scaled by c^k, where c = 1 - 2·lr. */
  lemma ParaboloidIterate(lr: real, c: real, start: Vec2, k: nat)
    requires c == 1.0 - 2.0 * lr
    ensures Iterate(Paraboloid, lr, start, k) == Vec2(Pow(c, k) * start.x, Pow(c, k) * start.y)
  {
    ParaboloidIterateX(lr, c, start, k);
    ParaboloidIterateY(lr, c, start, k);
  }

  /** On the saddle, the x coordinate of point k is the start's scaled by a^k. */
  lemma {:induction false} SaddleIterateX(lr: real, a: real, start: Vec2, k: nat)
    requires a == 1.0 - 2.0 * lr
    ensures Iterate(Saddle, lr, start, k).x == Pow(a, k) * start.x
  {
    if k > 0 {
      SaddleIterateX(lr, a, start, k - 1);
      SaddleStep(lr, a, 1.0 + 2.0 * lr, Iterate(Saddle, lr, start, k - 1));
      Regroup(a, Pow(a, k - 1), start.x);
    }
  }

  /** On the saddle, the y coordinate of point k is the start's scaled by b^k. */
  lemma {:induction false} SaddleIterateY(lr: real, b: real, start: Vec2, k: nat)
    requires b == 1.0 + 2.0 * lr
    ensures Iterate(Saddle, lr, start, k).y == Pow(b, k) * start.y
  {
    if k > 0 {
      SaddleIterateY(lr, b, start, k - 1);
      SaddleStep(lr, 1.0 - 2.0 * lr, b, Iterate(Saddle, lr, start, k - 1));
      Regroup(b, Pow(b, k - 1), start.y);
    }
  }

  /** On the saddle, point k is the start point scaled by a^k along x and b^k along y, where a = 1 - 2·lr and b = 1 + 2·lr. */
  lemma SaddleIterate(lr: real, a: real, b: real, start: Vec2, k: nat)
    requires a == 1.0 - 2.0 * lr && b == 1.0 + 2.0 * lr
    ensures Iterate(Saddle, lr, start, k) == Vec2(Pow(a, k) * start.x, Pow(b, k) * start.y)
  {
    SaddleIterateX(lr, a, start, k);
    SaddleIterateY(lr, b, start, k);
  }

  /** The square of a product is the product of the squares. */
  lemma SquareOfProduct(a: real, b: real)
    ensures Sq(a * b) == Sq(a) * Sq(b)
  {
  }

  /** A square is at most one exactly for a number between -1 and 1. */
  lemma SquareAtMostOne(c: real)
    ensures Sq(c) <= 1.0 <==> -1.0 <= c <= 1.0
  {
    if c > 1.0 {
      assert c * c > 1.0 * c;
    } else if c < -1.0 {
      assert c * c > -1.0 * c;
    } else if c >= 0.0 {
      assert c * c <= 1.0 * c;
    } else {
      assert c * c <= -1.0 * c;
    }
  }

  /** Scaling a positive amount by s keeps it from growing exactly when s is at most one. */
  lemma ScaleAtMost(s: real, n: real)
    requires n > 0.0
    ensures s * n <= n <==> s <= 1.0
  {
    if s <= 1.0 {
      assert s * n <= 1.0 * n;
    } else {
      assert s * n > 1.0 * n;
    }
  }

  /** A paraboloid step scales the squared distance to the origin by `(1 - 2·lr)²`. */
  lemma ParaboloidStepScales(lr: real, c: real, p: Vec2)
    requires c == 1.0 - 2.0 * lr
    ensures Norm2(Step(Paraboloid, lr, p)) == Sq(c) * Norm2(p)
  {
    ParaboloidStep(lr, c, p);
    SquareOfProduct(c, p.x);
    SquareOfProduct(c, p.y);
  }

  /**
   * Away from the origin, a paraboloid step comes no further from it exactly
   * when the learning rate lies in [0, 1].
   */
  lemma ParaboloidStepNotFurther(lr: real, p: Vec2)
    requires p != Vec2(0.0, 0.0)
    ensures Norm2(Step(Paraboloid, lr, p)) <= Norm2(p) <==> 0.0 <= lr <= 1.0
  {
    ParaboloidStepScales(lr, 1.0 - 2.0 * lr, p);
    ParaboloidMinimum(p.x, p.y);
    ScaleAtMost(Sq(1.0 - 2.0 * lr), Norm2(p));
    SquareAtMostOne(1.0 - 2.0 * lr);
  }

  /** With a learning rate in [0, 1], a paraboloid step never moves away from the origin. */
  lemma ParaboloidStepNoFurther(lr: real, p: Vec2)
    requires 0.0 <= lr <= 1.0
    ensures Norm2(Step(Paraboloid, lr, p)) <= Norm2(p)
  {
    ParaboloidStepScales(lr, 1.0 - 2.0 * lr, p);
    ParaboloidMinimum(p.x, p.y);
    SquareAtMostOne(1.0 - 2.0 * lr);
    SquareNonNegative(1.0 - 2.0 * lr);
    if Norm2(p) > 0.0 {
      ScaleAtMost(Sq(1.0 - 2.0 * lr), Norm2(p));
    }
  }

  /** Hence along a paraboloid trajectory the distance to the origin never grows. */
  lemma ParaboloidDescends(lr: real, start: Vec2, k: nat)
    requires 0.0 <= lr <= 1.0
    ensures Norm2(Iterate(Paraboloid, lr, start, k + 1)) <= Norm2(Iterate(Paraboloid, lr, start, k))
  {
    ParaboloidStepNoFurther(lr, Iterate(Paraboloid, lr, start, k));
  }

  /** A point where the gradient vanishes is never left. */
  lemma {:induction false} CriticalPointIsFixed(kind: Kind, lr: real, p: Vec2, k: nat)
    requires Gradient(kind, p.x, p.y) == Vec2(0.0, 0.0)
    ensures Iterate(kind, lr, p, k) == p
  {
    if k > 0 {
      CriticalPointIsFixed(kind, lr, p, k - 1);
    }
  }

  /** A Rosenbrock trajectory started at (1, 1) stays at (1, 1). */
  lemma RosenbrockMinimumIsFixed(lr: real, iterations: int)
    ensures forall k :: 0 <= k < |Trajectory("rosenbrock", lr, iterations, Vec2(1.0, 1.0))| ==>
      Trajectory("rosenbrock", lr, iterations, Vec2(1.0, 1.0))[k] == Vec2(1.0, 1.0)
  {
    RosenbrockCriticalPoint(1.0, 1.0);
    PathAt("rosenbrock", lr, Vec2(1.0, 1.0), StepCount(iterations));
    forall k | 0 <= k <= StepCount(iterations) {
      CriticalPointIsFixed(Rosenbrock, lr, Vec2(1.0, 1.0), k);
    }
  }
}
