/**
 * The live front end: it lists the loss functions the server offers, draws
 * the selected one on an 80 by 80 grid over that function's range, and moves
 * a marker downhill one gradient step per timer tick. As in the batch front
 * end, the component's state is the datatype `VisState`, every handler is a
 * function on it, and the class `VisualizerComponent` holds the same state
 * in fields with each method proved against those functions.
 *
 * The running timer is the field `interval`: `Some(timer)` while an interval
 * is registered, where `timer` holds the loss function and learning rate its
 * callback closed over when it was started.
 */
module Visualizer {
  import opened Wrappers
  import opened Geometry
  import opened Surfaces
  import Server

  /** One entry of the server's function list: a name and the `[min, max]` range to draw. */
  datatype LossFn = LossFn(name: string, min: real, max: real)

  /** The loss of the selected function: zero when none is selected, paraboloid for unknown names. */
  function Loss(lossFn: Option<LossFn>, x: real, y: real): (z: real)
    ensures lossFn.None? ==> z == 0.0
    ensures lossFn.Some? ==> z == Value(KindOf(lossFn.value.name), x, y)
  {
    match lossFn
    case None => 0.0
    case Some(f) =>
      if f.name == "paraboloid" then x * x + y * y
      else if f.name == "saddle" then x * x - y * y
      else if f.name == "rosenbrock" then (1.0 - x) * (1.0 - x) + 100.0 * ((y - x * x) * (y - x * x))
      else x * x + y * y
  }

  /**
   * The gradient of the selected function: zero when none is selected. Its
   * Rosenbrock x component is grouped differently from the backend's, and
   * the two agree everywhere.
   */
  function Gradient(lossFn: Option<LossFn>, x: real, y: real): (g: Vec2)
    ensures lossFn.None? ==> g == Vec2(0.0, 0.0)
    ensures lossFn.Some? ==> g == Server.GetGradient(lossFn.value.name, x, y)
  {
    match lossFn
    case None => Vec2(0.0, 0.0)
    case Some(f) =>
      if f.name == "paraboloid" then Vec2(2.0 * x, 2.0 * y)
      else if f.name == "saddle" then Vec2(2.0 * x, -2.0 * y)
      else if f.name == "rosenbrock" then Vec2(-2.0 * (1.0 - x) - 400.0 * x * (y - x * x), 200.0 * (y - x * x))
      else Vec2(2.0 * x, 2.0 * y)
  }

  /** The 80 sample coordinates spread evenly over `[f.min, f.max]`, both ends included. */
  function SampleAxis(f: LossFn): (r: seq<real>)
    ensures |r| == 80
    ensures r[0] == f.min && r[79] == f.max
  {
    seq(80, i => f.min + (i as real / 79.0) * (f.max - f.min))
  }

  /** Neighbouring samples are one 79th of the range apart. */
  lemma SampleSpacing(f: LossFn, i: nat)
    requires i < 79
    ensures SampleAxis(f)[i + 1] - SampleAxis(f)[i] == (f.max - f.min) / 79.0
  {
    var d := f.max - f.min;
    assert SampleAxis(f)[i + 1] == f.min + ((i + 1) as real / 79.0) * d;
    assert SampleAxis(f)[i] == f.min + (i as real / 79.0) * d;
    assert (i + 1) as real / 79.0 == i as real / 79.0 + 1.0 / 79.0;
  }

  /** For a range written low to high, every sample lies inside it. */
  lemma SamplesWithinRange(f: LossFn, i: nat)
    requires f.min <= f.max && i < 80
    ensures f.min <= SampleAxis(f)[i] <= f.max
  {
    var d := f.max - f.min;
    var t := i as real / 79.0;
    assert 0.0 <= t <= 1.0;
    assert SampleAxis(f)[i] == f.min + t * d;
    assert t * d <= d by {
      assert (1.0 - t) * d >= 0.0;
    }
  }

  /** The live surface: empty without a selected function, else the loss over the sampled grid. */
  function GenerateSurface(lossFn: Option<LossFn>): (s: Surface)
    ensures lossFn.None? ==> s == Surface([], [], [])
    ensures lossFn.Some? ==> s.x == SampleAxis(lossFn.value) && s.y == s.x
    ensures lossFn.Some? ==> |s.z| == 80 && forall i :: 0 <= i < 80 ==> |s.z[i]| == 80
    ensures lossFn.Some? ==> forall i, j :: 0 <= i < 80 && 0 <= j < 80 ==> s.z[i][j] == Loss(lossFn, s.x[i], s.y[j])
  {
    match lossFn
    case None => Surface([], [], [])
    case Some(f) =>
      var range := SampleAxis(f);
      Surface(range, range, seq(80, i requires 0 <= i < 80 => seq(80, j requires 0 <= j < 80 => Loss(lossFn, range[i], range[j]))))
  }

  /** The first function in the list with the given name, if there is one. */
  function Find(functions: seq<LossFn>, name: string): (r: Option<LossFn>)
    ensures r.Some? ==> r.value in functions && r.value.name == name
    ensures r.None? <==> forall k :: 0 <= k < |functions| ==> functions[k].name != name
    ensures r.Some? ==>
      exists k :: 0 <= k < |functions| && functions[k] == r.value && forall m :: 0 <= m < k ==> functions[m].name != name
  {
    if |functions| == 0 then None
    else if functions[0].name == name then Some(functions[0])
    else
      var r := Find(functions[1..], name);
      assert forall k :: 1 <= k < |functions| ==> functions[k] == functions[1..][k - 1];
      r
  }

  /** What an interval's callback captured when it was registered. */
  datatype Timer = Timer(lossFn: Option<LossFn>, learningRate: real)

  /** The component's state. */
  datatype VisState = VisState(
    functions: seq<LossFn>,
    lossFn: Option<LossFn>,
    learningRate: real,
    marker: Vec3,
    running: bool,
    interval: Option<Timer>)

  /** The state on first render. */
  function Initial(): VisState
  {
    VisState([], None, 0.05, Vec3(0.0, 0.0, 0.0), false, None)
  }

  /** The x and y of a marker. */
  function Planar(m: Vec3): Vec2
  {
    Vec2(m.x, m.y)
  }

  /** A timer is registered exactly while the animation runs. */
  predicate TimerMatches(s: VisState)
  {
    s.running <==> s.interval.Some?
  }

  /** The marker sits on the drawn surface. */
  predicate OnSurface(s: VisState)
  {
    s.marker.z == Loss(s.lossFn, s.marker.x, s.marker.y)
  }

  /** A running timer steps on the function that is drawn. */
  predicate TimerCurrent(s: VisState)
  {
    s.interval.Some? ==> s.interval.value.lossFn == s.lossFn
  }

  /** The function list arrives: keep it and select its first entry, none for an empty list. */
  function Loaded(s: VisState, data: seq<LossFn>): VisState
  {
    s.(functions := data, lossFn := if |data| > 0 then Some(data[0]) else None)
  }

  /** The dropdown: select the listed function with that name, none if it is not listed. */
  function Select(s: VisState, name: string): VisState
  {
    s.(lossFn := Find(s.functions, name))
  }

  function WithLearningRate(s: VisState, learningRate: real): VisState
  {
    s.(learningRate := learningRate)
  }

  /** A click: ignored without a picked point, otherwise the marker moves onto the surface there. */
  function Click(s: VisState, picked: Option<Vec2>): VisState
  {
    match picked
    case None => s
    case Some(p) => s.(marker := Vec3(p.x, p.y, Loss(s.lossFn, p.x, p.y)))
  }

  /** Start: nothing while running; otherwise register a timer over the current function and rate. */
  function Start(s: VisState): VisState
  {
    if s.running then s
    else s.(running := true, interval := Some(Timer(s.lossFn, s.learningRate)))
  }

  /** The `gradient` closure of the selected function. */
  function GradientOf(lossFn: Option<LossFn>): (real, real) -> Vec2
  {
    (x: real, y: real) => Gradient(lossFn, x, y)
  }

  /** The `loss` closure of the selected function. */
  function LossOf(lossFn: Option<LossFn>): (real, real) -> real
  {
    (x: real, y: real) => Loss(lossFn, x, y)
  }

  /**
   * The marker updater a tick applies: one step against `gradient` with rate
   * `lr`, the backend's update, and the new height read off `loss`.
   */
  function Descent(gradient: (real, real) -> Vec2, loss: (real, real) -> real, lr: real, m: Vec3): (r: Vec3)
    ensures Planar(r) == Server.Advance(gradient, lr, Planar(m))
    ensures r.z == loss(r.x, r.y)
  {
    var g := gradient(m.x, m.y);
    var newX := m.x - lr * g.x;
    var newY := m.y - lr * g.y;
    Vec3(newX, newY, loss(newX, newY))
  }

  /** One firing of the registered timer: one gradient step with what it captured. */
  function Tick(s: VisState): VisState
    requires s.interval.Some?
  {
    var t := s.interval.value;
    s.(marker := Descent(GradientOf(t.lossFn), LossOf(t.lossFn), t.learningRate, s.marker))
  }

  /** `n` firings of the timer; a live timer never unregisters itself. */
  function Ticks(s: VisState, n: nat): VisState
    requires s.interval.Some?
    decreases n
  {
    if n == 0 then s else Ticks(Tick(s), n - 1)
  }

  function Pause(s: VisState): VisState
  {
    s.(running := false, interval := None)
  }

  function Reset(s: VisState): VisState
  {
    Pause(s).(marker := Vec3(0.0, 0.0, Loss(s.lossFn, 0.0, 0.0)))
  }

  /** The first render is idle, with the marker on the (still zero) surface. */
  lemma InitialIsIdle()
    ensures TimerMatches(Initial()) && OnSurface(Initial()) && TimerCurrent(Initial())
    ensures !Initial().running && Initial().lossFn.None?
  {
  }

  /** Loading selects the first listed function; the timer, if any, is untouched. */
  lemma LoadedSelectsFirst(s: VisState, data: seq<LossFn>)
    ensures |data| > 0 ==> Loaded(s, data).lossFn == Some(data[0])
    ensures |data| == 0 ==> Loaded(s, data).lossFn.None?
    ensures Loaded(s, data).functions == data
    ensures TimerMatches(s) ==> TimerMatches(Loaded(s, data))
  {
  }

  /** Selecting a name picks the first listed function with that name, or none. */
  lemma SelectPicksListed(s: VisState, name: string)
    ensures Select(s, name).lossFn.Some? ==> Select(s, name).lossFn.value in s.functions
    ensures Select(s, name).lossFn.Some? ==> Select(s, name).lossFn.value.name == name
    ensures Select(s, name).lossFn.None? <==> forall k :: 0 <= k < |s.functions| ==> s.functions[k].name != name
    ensures TimerMatches(s) ==> TimerMatches(Select(s, name))
    ensures !s.running && TimerMatches(s) ==> TimerCurrent(Select(s, name))
  {
  }

  /** A click with a picked point puts the marker on the surface there and never starts or stops the timer. */
  lemma ClickPutsMarkerOnSurface(s: VisState, picked: Option<Vec2>)
    ensures picked.None? ==> Click(s, picked) == s
    ensures picked.Some? ==> Planar(Click(s, picked).marker) == picked.value && OnSurface(Click(s, picked))
    ensures Click(s, picked).running == s.running && Click(s, picked).interval == s.interval
    ensures TimerCurrent(s) ==> TimerCurrent(Click(s, picked))
  {
  }

  /**
   * Start never registers a second timer: while running it changes nothing;
   * otherwise it registers one over the current function and rate, leaving
   * the marker where it is.
   */
  lemma StartNeverStacksIntervals(s: VisState)
    requires TimerMatches(s)
    ensures s.running ==> Start(s) == s
    ensures !s.running ==> Start(s).interval == Some(Timer(s.lossFn, s.learningRate))
    ensures Start(s).running && Start(s).marker == s.marker
    ensures TimerMatches(Start(s))
    ensures TimerCurrent(s) ==> TimerCurrent(Start(s))
  {
  }

  /** The captured `gradient` closure of a selected function is the backend's gradient. */
  lemma GradientOfIsBackend(lossFn: Option<LossFn>, x: real, y: real)
    requires lossFn.Some?
    ensures GradientOf(lossFn)(x, y) == Server.Gradient(KindOf(lossFn.value.name), x, y)
  {
    assert GradientOf(lossFn)(x, y) == Gradient(lossFn, x, y);
  }

  /**
   * A tick with a selected function is one backend step from the marker's
   * position with the captured rate, and lands on the captured surface.
   */
  lemma TickIsBackendStep(s: VisState)
    requires s.interval.Some? && s.interval.value.lossFn.Some?
    ensures Planar(Tick(s).marker) ==
      Server.Step(KindOf(s.interval.value.lossFn.value.name), s.interval.value.learningRate, Planar(s.marker))
    ensures Tick(s).marker.z == Loss(s.interval.value.lossFn, Tick(s).marker.x, Tick(s).marker.y)
    ensures Tick(s).interval == s.interval && Tick(s).running == s.running
  {
    var t := s.interval.value;
    GradientOfIsBackend(t.lossFn, s.marker.x, s.marker.y);
    Server.AdvanceIsStep(GradientOf(t.lossFn), KindOf(t.lossFn.value.name), t.learningRate, Planar(s.marker));
  }

  /** A tick with no function selected leaves the marker where it is, at height zero. */
  lemma TickWithoutFunctionStays(s: VisState)
    requires s.interval.Some? && s.interval.value.lossFn.None?
    ensures Tick(s).marker == Vec3(s.marker.x, s.marker.y, 0.0)
  {
  }

  /** Ticks keep the marker on the surface while the timer steps on the drawn function. */
  lemma TickKeepsOnSurface(s: VisState)
    requires s.interval.Some? && TimerCurrent(s)
    ensures OnSurface(Tick(s)) && TimerCurrent(Tick(s)) && Tick(s).interval == s.interval
  {
  }

  /** `k` live ticks follow the backend's iteration from the marker's position. */
  lemma {:induction false} LiveTicksFollowBackend(s: VisState, k: nat)
    requires s.interval.Some? && s.interval.value.lossFn.Some?
    ensures Planar(Ticks(s, k).marker) ==
      Server.Iterate(KindOf(s.interval.value.lossFn.value.name), s.interval.value.learningRate, Planar(s.marker), k)
    decreases k
  {
    if k > 0 {
      TickIsBackendStep(s);
      LiveTicksFollowBackend(Tick(s), k - 1);
      IterateFromStep(KindOf(s.interval.value.lossFn.value.name), s.interval.value.learningRate, Planar(s.marker), k - 1);
    }
  }

  /** Iterating k + 1 times is iterating k times from the first step. */
  lemma {:induction false} IterateFromStep(kind: Kind, lr: real, p: Vec2, k: nat)
    ensures Server.Iterate(kind, lr, Server.Step(kind, lr, p), k) == Server.Iterate(kind, lr, p, k + 1)
    decreases k
  {
    if k > 0 {
      IterateFromStep(kind, lr, p, k - 1);
    }
  }

  /**
   * The live marker visits the same points as the batch trajectory the
   * backend computes from the marker's position with the same function and rate.
   */
  lemma LiveMatchesBatch(s: VisState, iterations: nat, k: nat)
    requires s.interval.Some? && s.interval.value.lossFn.Some?
    requires k <= iterations
    ensures Planar(Ticks(s, k).marker) ==
      Server.Trajectory(s.interval.value.lossFn.value.name, s.interval.value.learningRate, iterations, Planar(s.marker))[k]
  {
    var name := s.interval.value.lossFn.value.name;
    LiveTicksFollowBackend(s, k);
    Server.PathAt(name, s.interval.value.learningRate, Planar(s.marker), iterations);
  }

  /**
   * The timer keeps the function it captured: choosing another function in
   * the dropdown during a run does not change what the ticks step on. Here a
   * paraboloid run from (1, 1) with rate 0.1 is switched to "rosenbrock";
   * the next tick takes a paraboloid step to (0.8, 0.8) at paraboloid height
   * 1.28, while the drawn Rosenbrock surface is at 2.6 there, so the marker
   * leaves the drawn surface.
   */
  lemma SelectDuringRunKeepsOldFunction()
    ensures var p := LossFn("paraboloid", -5.0, 5.0);
      var r := LossFn("rosenbrock", -2.0, 2.0);
      var s := VisState([p, r], Some(p), 0.1, Vec3(1.0, 1.0, 2.0), true, Some(Timer(Some(p), 0.1)));
      var e := Tick(Select(s, "rosenbrock"));
      && TimerMatches(s) && OnSurface(s) && TimerCurrent(s)
      && e.lossFn == Some(r)
      && e.marker == Vec3(0.8, 0.8, 1.28)
      && Loss(Some(r), 0.8, 0.8) == 2.6
      && !OnSurface(e) && !TimerCurrent(e)
  {
    var p := LossFn("paraboloid", -5.0, 5.0);
    var r := LossFn("rosenbrock", -2.0, 2.0);
    var s := VisState([p, r], Some(p), 0.1, Vec3(1.0, 1.0, 2.0), true, Some(Timer(Some(p), 0.1)));
    assert Find([p, r], "rosenbrock") == Some(r) by {
      assert [p, r][1..] == [r];
    }
    var t := Select(s, "rosenbrock");
    assert GradientOf(Some(p))(1.0, 1.0) == Vec2(2.0, 2.0);
    assert Tick(t).marker == Vec3(0.8, 0.8, 1.28);
  }

  /** Pause stops the timer and leaves the marker where it is. */
  lemma PauseKeepsMarker(s: VisState)
    ensures !Pause(s).running && Pause(s).interval.None? && Pause(s).marker == s.marker
    ensures TimerMatches(Pause(s)) && TimerCurrent(Pause(s))
    ensures OnSurface(s) ==> OnSurface(Pause(s))
  {
  }

  /** Reset stops the timer and puts the marker on the surface above the origin. */
  lemma ResetReturnsToOrigin(s: VisState)
    ensures !Reset(s).running && Reset(s).interval.None?
    ensures Reset(s).marker == Vec3(0.0, 0.0, Loss(s.lossFn, 0.0, 0.0))
    ensures TimerMatches(Reset(s)) && TimerCurrent(Reset(s)) && OnSurface(Reset(s))
  {
  }

  /**
   * The component object: the same state in fields, each handler a method
   * proved against the transition function above.
   */
  class VisualizerComponent {
    var functions: seq<LossFn>
    var lossFn: Option<LossFn>
    var learningRate: real
    var marker: Vec3
    var running: bool
    var interval: Option<Timer>

    function State(): VisState
      reads this
    {
      VisState(functions, lossFn, learningRate, marker, running, interval)
    }

    constructor()
      ensures State() == Initial()
    {
      functions := [];
      lossFn := None;
      learningRate := 0.05;
      marker := Vec3(0.0, 0.0, 0.0);
      running := false;
      interval := None;
    }

    /** The answer of the function-list request. */
    method LoadFunctions(data: seq<LossFn>)
      modifies this
      ensures State() == Loaded(old(State()), data)
    {
      functions := data;
      if |data| > 0 {
        lossFn := Some(data[0]);
      } else {
        lossFn := None;
      }
    }

    method SelectLossFn(name: string)
      modifies this
      ensures State() == Select(old(State()), name)
    {
      lossFn := Find(functions, name);
    }

    method SetLearningRate(rate: real)
      modifies this
      ensures State() == WithLearningRate(old(State()), rate)
    {
      learningRate := rate;
    }

    method HandleClick(picked: Option<Vec2>)
      modifies this
      ensures State() == Click(old(State()), picked)
    {
      if picked.Some? {
        var px := picked.value.x;
        var py := picked.value.y;
        marker := Vec3(px, py, Loss(lossFn, px, py));
      }
    }

    method StartAnimation()
      modifies this
      ensures State() == Start(old(State()))
    {
      if running {
        return;
      }
      running := true;
      interval := Some(Timer(lossFn, learningRate));
    }

    /** The callback of the registered interval. */
    method OnTick()
      requires interval.Some?
      modifies this
      ensures State() == Tick(old(State()))
    {
      var t := interval.value;
      marker := Descent(GradientOf(t.lossFn), LossOf(t.lossFn), t.learningRate, marker);
    }

    method PauseAnimation()
      modifies this
      ensures State() == Pause(old(State()))
    {
      running := false;
      interval := None;
    }

    method ResetAnimation()
      modifies this
      ensures State() == Reset(old(State()))
    {
      PauseAnimation();
      marker := Vec3(0.0, 0.0, Loss(lossFn, 0.0, 0.0));
    }
  }
}
