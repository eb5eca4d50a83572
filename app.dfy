/**
 * The batch front end: it asks the backend for a whole trajectory, then
 * reveals it one point per timer tick. The component's state is the
 * datatype `AppState`; every handler is a function from the old state to
 * the new one, and the class `AppComponent` holds the same state in fields
 * and proves each of its methods against those functions.
 *
 * The running timer is the field `interval`: `Some(captured)` while an
 * interval is registered, where `captured` is the `points` array its
 * callback closed over when it was started.
 */
module App {
  import opened Wrappers
  import opened Geometry
  import opened Surfaces
  import Server

  /** The loss the batch view draws: the switch on `fnName`, paraboloid by default. */
  function SurfaceLoss(fnName: string, x: real, y: real): (z: real)
    ensures fnName == "paraboloid" ==> z == x * x + y * y
    ensures fnName == "saddle" ==> z == x * x - y * y
    ensures fnName == "rosenbrock" ==> z == (1.0 - x) * (1.0 - x) + 100.0 * ((y - x * x) * (y - x * x))
    ensures fnName != "saddle" && fnName != "rosenbrock" ==> z == x * x + y * y
  {
    Value(KindOf(fnName), x, y)
  }

  /** The 50 sample coordinates of the batch surface, from -5 in steps of 0.2. */
  function GridAxis(): (r: seq<real>)
    ensures |r| == 50
    ensures forall i :: 0 <= i < 50 ==> r[i] == i as real / 5.0 - 5.0
    ensures r[0] == -5.0 && r[49] == 4.8
    ensures forall i :: 0 <= i < 50 ==> -5.0 <= r[i] < 5.0
    ensures forall i :: 0 <= i < 49 ==> r[i + 1] == r[i] + 0.2
  {
    seq(50, i => i as real / 5.0 - 5.0)
  }

  /** The batch surface: the same axis for x and y, and the loss at every grid point. */
  function GenerateSurface(fnName: string): (s: Surface)
    ensures s.x == GridAxis() && s.y == GridAxis()
    ensures |s.z| == 50
    ensures forall i :: 0 <= i < 50 ==> |s.z[i]| == 50
    ensures forall i, j :: 0 <= i < 50 && 0 <= j < 50 ==> s.z[i][j] == SurfaceLoss(fnName, s.x[i], s.y[j])
  {
    var axis := GridAxis();
    Surface(axis, axis, seq(50, i requires 0 <= i < 50 => seq(50, j requires 0 <= j < 50 => SurfaceLoss(fnName, axis[i], axis[j]))))
  }

  /** The component's state; `interval` is the registered timer and the points it captured. */
  datatype AppState = AppState(
    fnName: string,
    learningRate: real,
    iterations: int,
    startPoint: Vec2,
    points: seq<Vec2>,
    animatedPoints: seq<Vec2>,
    isAnimating: bool,
    animationIndex: nat,
    interval: Option<seq<Vec2>>)

  /** The state on first render. */
  function Initial(): AppState
  {
    AppState("paraboloid", 0.1, 30, Vec2(3.0, 3.0), [], [], false, 0, None)
  }

  /**
   * What playback keeps true: the revealed points are the first
   * `animationIndex` points of the path, a timer is registered exactly while
   * the animation runs, and that timer reveals the current path.
   */
  predicate Consistent(s: AppState)
  {
    && s.animationIndex <= |s.points|
    && s.animatedPoints == s.points[..s.animationIndex]
    && (s.isAnimating <==> s.interval.Some?)
    && (s.interval.Some? ==> s.interval.value == s.points && |s.points| > 0)
  }

  /** The dropdown and the two number inputs. */
  function WithFnName(s: AppState, fnName: string): AppState
  {
    s.(fnName := fnName)
  }

  function WithLearningRate(s: AppState, learningRate: real): AppState
  {
    s.(learningRate := learningRate)
  }

  function WithIterations(s: AppState, iterations: int): AppState
  {
    s.(iterations := iterations)
  }

  /** The request the Compute button sends. */
  function RequestOf(s: AppState): Server.Request
  {
    Server.Request(s.fnName, s.learningRate, s.iterations, s.startPoint)
  }

  /** Compute as the handler is written: store the reply and rewind, leaving any timer running. */
  function ComputeAsWritten(s: AppState, reply: seq<Vec2>): AppState
  {
    s.(points := reply, animatedPoints := [], animationIndex := 0)
  }

  /** Compute with the running timer stopped first, as a reset does. */
  function Compute(s: AppState, reply: seq<Vec2>): AppState
  {
    Pause(s).(points := reply, animatedPoints := [], animationIndex := 0)
  }

  /** Start: nothing without points or while running; otherwise register a timer over `points`. */
  function Start(s: AppState): AppState
  {
    if |s.points| == 0 then s
    else if s.isAnimating then s
    else s.(isAnimating := true, interval := Some(s.points))
  }

  /** One firing of the registered timer. */
  function Tick(s: AppState): AppState
    requires s.interval.Some?
  {
    var captured := s.interval.value;
    if s.animationIndex >= |captured| then
      s.(interval := None, isAnimating := false)
    else
      s.(animatedPoints := s.animatedPoints + [captured[s.animationIndex]], animationIndex := s.animationIndex + 1)
  }

  /** `n` firings of the timer, or fewer if it unregisters itself. */
  function Ticks(s: AppState, n: nat): AppState
    decreases n
  {
    if n == 0 || s.interval.None? then s else Ticks(Tick(s), n - 1)
  }

  function Pause(s: AppState): AppState
  {
    s.(interval := None, isAnimating := false)
  }

  function Reset(s: AppState): AppState
  {
    Pause(s).(animatedPoints := [], animationIndex := 0)
  }

  /** A click on the surface moves the start point and resets playback. */
  function Click(s: AppState, x: real, y: real): AppState
  {
    Reset(s.(startPoint := Vec2(x, y)))
  }

  /** The first render is consistent and idle. */
  lemma InitialIsConsistent()
    ensures Consistent(Initial())
    ensures !Initial().isAnimating && Initial().points == [] && Initial().animatedPoints == []
  {
  }

  /** The inputs change only the next request, never playback. */
  lemma SettersKeepConsistent(s: AppState, fnName: string, learningRate: real, iterations: int)
    requires Consistent(s)
    ensures Consistent(WithFnName(s, fnName))
    ensures Consistent(WithLearningRate(s, learningRate))
    ensures Consistent(WithIterations(s, iterations))
  {
  }

  /**
   * Start never registers a second timer: with one registered, or with no
   * points, it changes nothing; otherwise it registers exactly one, over the
   * current path, and playback stays consistent.
   */
  lemma StartNeverStacksIntervals(s: AppState)
    requires Consistent(s)
    ensures s.interval.Some? || |s.points| == 0 ==> Start(s) == s
    ensures Start(s).interval.Some? <==> |s.points| > 0
    ensures Start(s).interval.Some? ==> Start(s).interval.value == s.points
    ensures Start(s).animatedPoints == s.animatedPoints && Start(s).animationIndex == s.animationIndex
    ensures Consistent(Start(s))
  {
  }

  /**
   * A tick before the end reveals the next point of the path and keeps
   * running; a tick at the end keeps every point revealed and stops.
   */
  lemma TickRevealsNextPoint(s: AppState)
    requires Consistent(s) && s.isAnimating
    ensures s.animationIndex < |s.points| ==>
      Tick(s).animatedPoints == s.animatedPoints + [s.points[s.animationIndex]] &&
      Tick(s).animationIndex == s.animationIndex + 1 && Tick(s).isAnimating
    ensures s.animationIndex >= |s.points| ==>
      Tick(s).animatedPoints == s.points && !Tick(s).isAnimating && Tick(s).interval.None?
    ensures Consistent(Tick(s))
  {
    if s.animationIndex < |s.points| {
      assert s.points[..s.animationIndex] + [s.points[s.animationIndex]] == s.points[..s.animationIndex + 1];
    }
  }

  /** `n` ticks before the end reveal exactly the next `n` points. */
  lemma {:induction false} TicksReveal(s: AppState, n: nat)
    requires Consistent(s) && s.isAnimating
    requires s.animationIndex + n <= |s.points|
    ensures Ticks(s, n) == s.(animatedPoints := s.points[..s.animationIndex + n], animationIndex := s.animationIndex + n)
    decreases n
  {
    if n > 0 {
      TickRevealsNextPoint(s);
      TicksReveal(Tick(s), n - 1);
    }
  }

  /**
   * Started from a reset, the animation has revealed the whole path exactly
   * after `|points|` ticks and is still running; the next tick stops it.
   */
  lemma PlaysToEnd(s: AppState)
    requires |s.points| > 0
    ensures var e := Ticks(Start(Reset(s)), |s.points|);
      e.animatedPoints == s.points && e.isAnimating && e.interval.Some? &&
      !Tick(e).isAnimating && Tick(e).animatedPoints == s.points
  {
    var r := Start(Reset(s));
    assert Consistent(r) && r.isAnimating && r.animationIndex == 0;
    TicksReveal(r, |s.points|);
    var e := Ticks(r, |s.points|);
    assert s.points[..|s.points|] == s.points;
    TickRevealsNextPoint(e);
  }

  /** Pause, running or not, unregisters any timer, keeps the progress and keeps the playback invariant. */
  lemma PauseKeepsProgress(s: AppState)
    requires Consistent(s)
    ensures !Pause(s).isAnimating && Pause(s).interval.None?
    ensures Pause(s).animatedPoints == s.animatedPoints && Pause(s).animationIndex == s.animationIndex
    ensures Pause(s).points == s.points
    ensures Consistent(Pause(s))
  {
  }

  /** Pause stops the timer and keeps the progress, so starting again resumes where it was. */
  lemma PauseThenStartResumes(s: AppState)
    requires Consistent(s) && s.isAnimating
    ensures !Pause(s).isAnimating && Pause(s).interval.None?
    ensures Pause(s).animatedPoints == s.animatedPoints && Pause(s).animationIndex == s.animationIndex
    ensures Consistent(Pause(s))
    ensures Start(Pause(s)) == s
  {
  }

  /** Reset restores an idle, empty playback over the same path, whatever the state was. */
  lemma ResetRestores(s: AppState)
    ensures var r := Reset(s);
      !r.isAnimating && r.interval.None? && r.animatedPoints == [] && r.animationIndex == 0 &&
      r.points == s.points && Consistent(r)
  {
  }

  /** A click moves the start point to the clicked point and resets playback. */
  lemma ClickMovesStart(s: AppState, x: real, y: real)
    ensures Click(s, x, y).startPoint == Vec2(x, y)
    ensures Click(s, x, y) == Reset(s).(startPoint := Vec2(x, y))
    ensures Consistent(Click(s, x, y))
  {
  }

  /** Compute (with the timer stopped) installs the reply as the path and rewinds, from any state. */
  lemma ComputeRewinds(s: AppState, reply: seq<Vec2>)
    ensures var r := Compute(s, reply);
      r.points == reply && r.animatedPoints == [] && r.animationIndex == 0 &&
      !r.isAnimating && Consistent(r)
  {
  }

  /** After a compute, starting plays exactly the new path. */
  lemma ComputeThenPlayShowsReply(s: AppState, reply: seq<Vec2>)
    requires |reply| > 0
    ensures Ticks(Start(Compute(s, reply)), |reply|).animatedPoints == reply
  {
    var r := Start(Compute(s, reply));
    assert Consistent(r) && r.isAnimating && r.animationIndex == 0;
    TicksReveal(r, |reply|);
    assert reply[..|reply|] == reply;
  }

  /** The handler as written keeps playback consistent only when no timer is running. */
  lemma ComputeAsWrittenWhenIdle(s: AppState, reply: seq<Vec2>)
    requires Consistent(s) && !s.isAnimating
    ensures ComputeAsWritten(s, reply) == Compute(s, reply)
    ensures Consistent(ComputeAsWritten(s, reply))
  {
  }

  /** The backend's reply for the default start with learning rate 0.2 and one step. */
  lemma FasterRunReply()
    ensures Server.Trajectory("paraboloid", 0.2, 1, Vec2(3.0, 3.0)) == [Vec2(3.0, 3.0), Vec2(1.8, 1.8)]
  {
    assert KindOf("paraboloid") == Paraboloid;
    Server.PathAt("paraboloid", 0.2, Vec2(3.0, 3.0), 1);
    assert Server.Iterate(Paraboloid, 0.2, Vec2(3.0, 3.0), 1) == Vec2(1.8, 1.8);
  }

  /**
   * Computing while the animation runs, as written: halfway through the
   * one-step path for learning rate 0.1, the rate is set to 0.2 and Compute
   * pressed. The path becomes the new one, Start is refused because the old
   * timer still runs, and the next two ticks reveal the OLD path, so the
   * revealed points are no longer a prefix of the path.
   */
  lemma ComputeDuringPlaybackShowsOldPath()
    ensures var old1 := [Vec2(3.0, 3.0), Vec2(2.4, 2.4)];
      var s := AppState("paraboloid", 0.1, 1, Vec2(3.0, 3.0), old1, [Vec2(3.0, 3.0)], true, 1, Some(old1));
      var faster := WithLearningRate(s, 0.2);
      var e := Ticks(Start(ComputeAsWritten(faster, Server.Trajectory("paraboloid", 0.2, 1, Vec2(3.0, 3.0)))), 2);
      Consistent(s) &&
      e.points == [Vec2(3.0, 3.0), Vec2(1.8, 1.8)] &&
      e.animatedPoints == old1 &&
      !Consistent(e)
  {
    var old1 := [Vec2(3.0, 3.0), Vec2(2.4, 2.4)];
    var s := AppState("paraboloid", 0.1, 1, Vec2(3.0, 3.0), old1, [Vec2(3.0, 3.0)], true, 1, Some(old1));
    assert s.points[..1] == [Vec2(3.0, 3.0)];
    FasterRunReply();
    var reply := [Vec2(3.0, 3.0), Vec2(1.8, 1.8)];
    var c := ComputeAsWritten(WithLearningRate(s, 0.2), reply);
    assert Start(c) == c;
    var t1 := Tick(c);
    assert t1.animatedPoints == [Vec2(3.0, 3.0)] && t1.animationIndex == 1;
    var t2 := Tick(t1);
    assert t2.animatedPoints == old1 && t2.animationIndex == 2;
    assert Ticks(c, 2) == t2;
    assert t2.points[..2] == reply;
    assert reply[1] != old1[1];
  }

  /**
   * The component object: the same state in fields, each handler a method
   * proved against the transition function above.
   */
  class AppComponent {
    var fnName: string
    var learningRate: real
    var iterations: int
    var startPoint: Vec2
    var points: seq<Vec2>
    var animatedPoints: seq<Vec2>
    var isAnimating: bool
    var animationIndex: nat
    var interval: Option<seq<Vec2>>

    function State(): AppState
      reads this
    {
      AppState(fnName, learningRate, iterations, startPoint, points, animatedPoints, isAnimating, animationIndex, interval)
    }

    constructor()
      ensures State() == Initial()
    {
      fnName := "paraboloid";
      learningRate := 0.1;
      iterations := 30;
      startPoint := Vec2(3.0, 3.0);
      points := [];
      animatedPoints := [];
      isAnimating := false;
      animationIndex := 0;
      interval := None;
    }

    method SetFnName(name: string)
      modifies this
      ensures State() == WithFnName(old(State()), name)
    {
      fnName := name;
    }

    method SetLearningRate(rate: real)
      modifies this
      ensures State() == WithLearningRate(old(State()), rate)
    {
      learningRate := rate;
    }

    method SetIterations(count: int)
      modifies this
      ensures State() == WithIterations(old(State()), count)
    {
      iterations := count;
    }

    /** Compute: stop playback, ask the backend, install its path and rewind. */
    method RunGradientDescent()
      modifies this
      ensures State() == Compute(old(State()), Server.Trajectory(old(fnName), old(learningRate), old(iterations), old(startPoint)))
    {
      PauseAnimation();
      var res := Server.GradientDescent(RequestOf(State()));
      points := res.points;
      animatedPoints := [];
      animationIndex := 0;
    }

    method StartAnimation()
      modifies this
      ensures State() == Start(old(State()))
    {
      if |points| == 0 {
        return;
      }
      if isAnimating {
        return;
      }
      isAnimating := true;
      interval := Some(points);
    }

    /** The callback of the registered interval. */
    method OnTick()
      requires interval.Some?
      modifies this
      ensures State() == Tick(old(State()))
    {
      var captured := interval.value;
      if animationIndex >= |captured| {
        interval := None;
        isAnimating := false;
        return;
      }
      var nextPoint := captured[animationIndex];
      animationIndex := animationIndex + 1;
      animatedPoints := animatedPoints + [nextPoint];
    }

    method PauseAnimation()
      modifies this
      ensures State() == Pause(old(State()))
    {
      interval := None;
      isAnimating := false;
    }

    method ResetAnimation()
      modifies this
      ensures State() == Reset(old(State()))
    {
      PauseAnimation();
      animatedPoints := [];
      animationIndex := 0;
    }

    method HandleClick(x: real, y: real)
      modifies this
      ensures State() == Click(old(State()), x, y)
    {
      startPoint := Vec2(x, y);
      ResetAnimation();
    }
  }
}
