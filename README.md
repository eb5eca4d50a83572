# Gradient descent visualizer — a Dafny model

The model covers the computational core of the gradient descent visualizer. That core is three pieces of code:

- **The backend** (`backend/server.js`). `getGradient` gives the gradient of three named loss surfaces: paraboloid, saddle and Rosenbrock. Any other name gets the paraboloid's gradient. The `/gradient-descent` handler starts at `startPoint` and takes `iterations` steps of `p - learningRate * gradient(p)`. It answers with every point visited and `converged: true`.
- **The batch front end** (`App.js`). It samples the selected surface on a 50 by 50 grid and asks the backend for a trajectory. It then plays that trajectory back one point per timer tick. Start, pause, reset and a click that moves the start point control the playback.
- **The live front end** (`Visualizer.jsx`). It keeps its own copy of the loss and gradient formulas and samples the selected function on an 80 by 80 grid over the function's range. It moves a marker one gradient step per timer tick. Start, pause, reset and a click that places the marker control it.

Arithmetic is exact (`real`). This abstracts JavaScript's doubles, so every property below is algebraic or structural.

Layout:

- `geometry.dfy`: `Option`, points, grids and small algebra.
- `surfaces.dfy`: the name switch and the three surfaces.
- `server.dfy`: the backend.
- `app.dfy`: the batch front end.
- `visualizer.dfy`: the live front end.

Each front end's state is modelled the same way:

- A datatype (`AppState`, `VisState`) holds the state.
- A pure function on it models each handler.
- A class (`AppComponent`, `VisualizerComponent`) holds the same state in fields. Each of its methods is proved to produce exactly what the matching function gives.

A registered `setInterval` is the field `interval`. It is `Some` of what the callback closed over, and each firing of the timer is an explicit tick.

The code is lenient, and the model follows it:

- The code accepts any learning rate and any iteration count. A count of zero or less gives just the start point.
- The code never rejects an unknown function name. It computes with the paraboloid instead.

## Model

| member | source | states |
|---|---|---|
| Surfaces.KindOf | backend/server.js:8-19 | "saddle" selects the saddle and "rosenbrock" the Rosenbrock surface, each if and only if that name is given; every other name, "paraboloid" included, selects the paraboloid |
| Surfaces.Value | gradient-descent-visualizer/src/App.js:69-74 | the height of each surface: x² + y², x² - y² and (1 - x)² + 100(y - x²)²; its partners are the three minimum lemmas below and the central-difference lemmas that tie it to the backend's gradient |
| Surfaces.ParaboloidMinimum | gradient-descent-visualizer/src/App.js:70 | the paraboloid is never negative, and is positive exactly away from the origin |
| Surfaces.SaddleIsNotAMinimum | gradient-descent-visualizer/src/App.js:71 | the saddle is 0 at the origin, positive along the x axis and negative along the y axis, so the origin is not a minimum |
| Surfaces.RosenbrockMinimum | gradient-descent-visualizer/src/App.js:72 | the Rosenbrock surface is never negative, and is positive everywhere except (1, 1) |
| Server.Gradient | backend/server.js:8-16 | the backend's three gradient formulas by surface; RosenbrockCriticalPoint and the central-difference lemmas below state what they are |
| Server.GetGradient | backend/server.js:7-20 | `getGradient`: the gradient of the surface the name selects, so an unknown name gets the paraboloid's; GetGradientByName spells out every case |
| Server.GetGradientByName | backend/server.js:7-19 | "paraboloid" gives (2x, 2y), "saddle" gives (2x, -2y), "rosenbrock" gives (-400x(y - x²) - 2(1 - x), 200(y - x²)), and any other name gives what "paraboloid" gives |
| Server.GradientYIsCentralDifference | backend/server.js:9-16 | for every surface, the y component of the gradient is exactly the central difference (f(x, y+h) - f(x, y-h)) / 2h, for any step h, so the formulas are the derivatives of the surfaces |
| Server.ParaboloidSlopeX | backend/server.js:10 | the paraboloid's x gradient is exactly its central difference in x, for any h |
| Server.SaddleSlopeX | backend/server.js:12 | the saddle's x gradient is exactly its central difference in x, for any h |
| Server.RosenbrockSlopeX | backend/server.js:14 | the central difference of the Rosenbrock surface in x equals 2h times the backend's x gradient, plus 800·x·h³ (a difference of order h³, so the formula is the derivative) |
| Server.RosenbrockCriticalPoint | backend/server.js:13-16 | the Rosenbrock gradient is (0, 0) if and only if the point is (1, 1) |
| Server.Step | backend/server.js:28-30 | one descent step on a surface: the point minus lr times the gradient there; ParaboloidStep and SaddleStep give its closed forms |
| Server.Iterate | backend/server.js:27-32 | the point after k steps from the start; PathAt ties it to the handler's points |
| Server.GradientOf | backend/server.js:28 | `getGradient` with the requested name fixed, as the loop calls it; GradientOfIsGetGradient states it is that function |
| Server.Advance | backend/server.js:28-30 | the loop body's update with a given gradient function; AdvanceIsStep ties it to Step |
| Server.Path | backend/server.js:25-32 | n updates from a start give n + 1 points |
| Server.StepCount | backend/server.js:27 | the loop body runs `iterations` times when that is not negative, and never when it is zero or less |
| Server.Trajectory | backend/server.js:24-32 | the handler's points: the path of `max(iterations, 0)` updates from `startPoint` with the requested gradient; TrajectoryShape states its start, length and recurrence |
| Server.PathRecurrence | backend/server.js:25-31 | a path starts with its start point, and each later point is the one before it minus lr times the gradient at it |
| Server.GradientOfIsGetGradient | backend/server.js:28 | the gradient the loop uses is `getGradient` with the requested name, at every point |
| Server.AdvanceIsStep | backend/server.js:28-30 | one loop update with a gradient that agrees with a surface's gradient at the point is that surface's descent step |
| Server.PathAt | backend/server.js:27-32 | point k of the path for a named surface is the point reached after k descent steps on the surface that the name selects |
| Server.TrajectoryShape | backend/server.js:24-32 | the answer starts at `startPoint`; it has `iterations + 1` points when `iterations >= 0` and is exactly `[startPoint]` when `iterations <= 0`; every next point is the previous one minus `learningRate · getGradient(fnName, previous)` |
| Server.Descend | backend/server.js:24-32 | the loop that mutates x and y and pushes each new point produces exactly the path of `max(iterations, 0)` updates from the start |
| Server.GradientDescent | backend/server.js:22-35 | the handler answers with the trajectory for the requested name, rate, count and start, and always reports `converged: true` |
| Server.DefaultStartExamples | backend/server.js:24-32 | from the front end's default start (3, 3) on the paraboloid with rate 0.1, zero iterations give [(3, 3)] and one gives [(3, 3), (2.4, 2.4)] |
| Server.ParaboloidStep | backend/server.js:9-10 | a paraboloid step multiplies both coordinates by c = 1 - 2·lr |
| Server.SaddleStep | backend/server.js:11-12 | a saddle step multiplies x by 1 - 2·lr and y by 1 + 2·lr |
| Server.ParaboloidIterateX | backend/server.js:27-32 | after k paraboloid steps, x is (1 - 2·lr)^k times the start's x |
| Server.ParaboloidIterateY | backend/server.js:27-32 | after k paraboloid steps, y is (1 - 2·lr)^k times the start's y |
| Server.ParaboloidIterate | backend/server.js:27-32 | point k of a paraboloid run is (1 - 2·lr)^k times the start point |
| Server.SaddleIterateX | backend/server.js:27-32 | after k saddle steps, x is (1 - 2·lr)^k times the start's x |
| Server.SaddleIterateY | backend/server.js:27-32 | after k saddle steps, y is (1 + 2·lr)^k times the start's y |
| Server.SaddleIterate | backend/server.js:27-32 | point k of a saddle run is ((1 - 2·lr)^k · x0, (1 + 2·lr)^k · y0) |
| Server.ParaboloidStepScales | backend/server.js:29-30 | a paraboloid step scales the squared distance to the origin by (1 - 2·lr)² |
| Server.ParaboloidStepNotFurther | backend/server.js:29-30 | away from the origin, a paraboloid step does not move further from the origin if and only if 0 <= lr <= 1 |
| Server.ParaboloidStepNoFurther | backend/server.js:29-30 | for 0 <= lr <= 1, a paraboloid step never moves further from the origin |
| Server.ParaboloidDescends | backend/server.js:27-32 | for 0 <= lr <= 1, each point of a paraboloid run is no further from the origin than the point before it |
| Server.CriticalPointIsFixed | backend/server.js:27-32 | a run started where the gradient vanishes stays there for any number of steps and any rate |
| Server.RosenbrockMinimumIsFixed | backend/server.js:13-16 | every point of a Rosenbrock trajectory started at (1, 1) is (1, 1), for any rate and count |
| App.SurfaceLoss | gradient-descent-visualizer/src/App.js:69-74 | the batch view's loss is x² + y² for "paraboloid", x² - y² for "saddle", (1 - x)² + 100(y - x²)² for "rosenbrock", and x² + y² for any other name (the same switch appears again at lines 85-90 and 142-147) |
| App.GridAxis | gradient-descent-visualizer/src/App.js:65-66 | 50 samples with x[i] = i/5 - 5: from -5 to 4.8 in steps of 0.2, all below 5 |
| App.GenerateSurface | gradient-descent-visualizer/src/App.js:64-78 | x and y are both that axis, z is 50 by 50, and z[i][j] is the loss at (x[i], y[j]) |
| App.Initial | gradient-descent-visualizer/src/App.js:6-16 | the `useState` defaults of the modelled state: "paraboloid", 0.1, 30, (3, 3), no points, idle, index 0, no timer; InitialIsConsistent states it satisfies the invariant |
| App.WithFnName | gradient-descent-visualizer/src/App.js:107 | the dropdown changes only the name; SettersKeepConsistent states it keeps the invariant |
| App.WithLearningRate | gradient-descent-visualizer/src/App.js:115 | the rate input changes only the rate; SettersKeepConsistent |
| App.WithIterations | gradient-descent-visualizer/src/App.js:119 | the count input changes only the count; SettersKeepConsistent |
| App.RequestOf | gradient-descent-visualizer/src/App.js:22-27 | the request body the Compute button sends: name, rate, count and start point |
| App.ComputeAsWritten | gradient-descent-visualizer/src/App.js:30-32 | the handler as written: the reply becomes `points`, `animatedPoints` is emptied and the index rewound, and a running timer is left registered; ComputeAsWrittenWhenIdle and ComputeDuringPlaybackShowsOldPath state when that is and is not harmless |
| App.Compute | gradient-descent-visualizer/src/App.js:18-33 | the corrected handler: pause first, then install the reply and rewind; ComputeRewinds and ComputeThenPlayShowsReply state its effect |
| App.Start | gradient-descent-visualizer/src/App.js:35-39 | no change without points or while running, otherwise a timer over the current `points`; StartNeverStacksIntervals states its guards |
| App.Tick | gradient-descent-visualizer/src/App.js:40-49 | one firing: past the end of the captured points it unregisters and stops; otherwise it appends the captured point at the index and advances the index; TickRevealsNextPoint states it against the invariant |
| App.Ticks | gradient-descent-visualizer/src/App.js:39-50 | n firings of the registered timer, ending early once it unregisters itself; TicksReveal and PlaysToEnd state what they reveal |
| App.Pause | gradient-descent-visualizer/src/App.js:53-56 | unregisters the timer and clears `isAnimating`; PauseKeepsProgress and PauseThenStartResumes |
| App.Reset | gradient-descent-visualizer/src/App.js:58-62 | a pause, then nothing revealed and index 0; ResetRestores |
| App.Click | gradient-descent-visualizer/src/App.js:93-98 | the start point becomes the clicked point, then a reset; ClickMovesStart |
| App.InitialIsConsistent | gradient-descent-visualizer/src/App.js:6-16 | the first render is idle with no path and nothing revealed, and satisfies the playback invariant |
| App.SettersKeepConsistent | gradient-descent-visualizer/src/App.js:107-119 | changing the name, rate or iteration count keeps the playback invariant |
| App.StartNeverStacksIntervals | gradient-descent-visualizer/src/App.js:35-39 | Start changes nothing while a timer runs or when there are no points; otherwise it registers exactly one timer, over the current path; progress is kept and the invariant holds |
| App.TickRevealsNextPoint | gradient-descent-visualizer/src/App.js:40-49 | before the end, a tick appends `points[animationIndex]` and advances the index by exactly one, still running; at the end it leaves `animatedPoints == points`, stops and unregisters; the invariant is kept |
| App.TicksReveal | gradient-descent-visualizer/src/App.js:40-49 | n ticks before the end reveal exactly the next n points: `animatedPoints == points[..animationIndex + n]` |
| App.PlaysToEnd | gradient-descent-visualizer/src/App.js:41-48 | after a reset and a start, `|points|` ticks leave `animatedPoints == points` with the animation still running, and the next tick stops it without changing what is shown |
| App.PauseKeepsProgress | gradient-descent-visualizer/src/App.js:53-56 | from any consistent state, running or idle, pause leaves no timer and `isAnimating` false, keeps `points`, `animatedPoints` and the index, and keeps the invariant |
| App.PauseThenStartResumes | gradient-descent-visualizer/src/App.js:53-56 | pause stops and unregisters the timer and keeps `animatedPoints` and `animationIndex`; starting again restores exactly the running state |
| App.ResetRestores | gradient-descent-visualizer/src/App.js:58-62 | from any state, reset leaves the animation stopped with nothing revealed, index 0 and the same path, so the invariant holds again |
| App.ClickMovesStart | gradient-descent-visualizer/src/App.js:93-98 | a click sets the start point to the clicked (x, y) and is otherwise exactly a reset |
| App.ComputeRewinds | gradient-descent-visualizer/src/App.js:30-32 | compute (with the timer stopped) installs the backend's reply as the path, reveals nothing, rewinds to index 0 and satisfies the invariant from any state |
| App.ComputeThenPlayShowsReply | gradient-descent-visualizer/src/App.js:18-51 | after compute and start, as many ticks as the reply has points reveal exactly the reply |
| App.ComputeAsWrittenWhenIdle | gradient-descent-visualizer/src/App.js:30-32 | while no timer runs, compute as written is the same as the corrected compute, and keeps the invariant |
| App.FasterRunReply | backend/server.js:24-32 | from (3, 3) on the paraboloid with rate 0.2, one iteration gives [(3, 3), (1.8, 1.8)] |
| App.ComputeDuringPlaybackShowsOldPath | gradient-descent-visualizer/src/App.js:30-48 | compute as written during playback: from a consistent state, the next ticks reveal the old path while `points` holds the new one, so the invariant is broken |
| App.AppComponent.constructor | gradient-descent-visualizer/src/App.js:6-16 | the fields start as the defaults: "paraboloid", 0.1, 30, (3, 3), no points, idle, index 0 |
| App.AppComponent.SetFnName | gradient-descent-visualizer/src/App.js:107 | only the function name changes |
| App.AppComponent.SetLearningRate | gradient-descent-visualizer/src/App.js:115 | only the learning rate changes |
| App.AppComponent.SetIterations | gradient-descent-visualizer/src/App.js:119 | only the iteration count changes |
| App.AppComponent.RunGradientDescent | gradient-descent-visualizer/src/App.js:18-33 | the timer is stopped, `points` becomes the backend's trajectory for the current inputs, and `animatedPoints` and the index are rewound (the source does not stop the timer; see Findings) |
| App.AppComponent.StartAnimation | gradient-descent-visualizer/src/App.js:35-51 | the new state is `Start` of the old one |
| App.AppComponent.OnTick | gradient-descent-visualizer/src/App.js:40-49 | the new state is `Tick` of the old one |
| App.AppComponent.PauseAnimation | gradient-descent-visualizer/src/App.js:53-56 | the timer is cleared and `isAnimating` is false; nothing else changes |
| App.AppComponent.ResetAnimation | gradient-descent-visualizer/src/App.js:58-62 | the new state is `Reset` of the old one |
| App.AppComponent.HandleClick | gradient-descent-visualizer/src/App.js:93-98 | the new state is `Click` of the old one at the clicked point |
| Visualizer.Loss | gradient-descent-visualizer/src/Visualizer.jsx:25-37 | with no function selected the loss is 0; otherwise it is the surface its name selects, paraboloid for unknown names, the same surface the batch view draws |
| Visualizer.Gradient | gradient-descent-visualizer/src/Visualizer.jsx:39-54 | with no function selected the gradient is (0, 0); otherwise it equals the backend's `getGradient` for the name, at every point, although the Rosenbrock x component is grouped differently |
| Visualizer.SampleAxis | gradient-descent-visualizer/src/Visualizer.jsx:58-62 | 80 samples, with the first equal to `min` and the last equal to `max` |
| Visualizer.SampleSpacing | gradient-descent-visualizer/src/Visualizer.jsx:60-62 | neighbouring samples are exactly (max - min) / 79 apart |
| Visualizer.SamplesWithinRange | gradient-descent-visualizer/src/Visualizer.jsx:60-62 | for min <= max, every sample lies within [min, max] |
| Visualizer.GenerateSurface | gradient-descent-visualizer/src/Visualizer.jsx:56-65 | with no function selected x, y and z are empty; otherwise x and y are the 80 samples and z[i][j] is the loss at (x[i], y[j]) |
| Visualizer.Find | gradient-descent-visualizer/src/Visualizer.jsx:110-112 | the result is listed and carries the name; it is none if and only if no listed function has the name; and no earlier entry has the name |
| Visualizer.GradientOf | gradient-descent-visualizer/src/Visualizer.jsx:39-54 | the `gradient` closure for a selected function; GradientOfIsBackend states it is the backend's gradient |
| Visualizer.LossOf | gradient-descent-visualizer/src/Visualizer.jsx:25-37 | the `loss` closure for a selected function, which the tick captures |
| Visualizer.Descent | gradient-descent-visualizer/src/Visualizer.jsx:81-86 | the marker updater moves (x, y) by the backend's update with the captured gradient and rate, and sets z to the captured loss at the new point |
| Visualizer.Initial | gradient-descent-visualizer/src/Visualizer.jsx:6-14 | the `useState` defaults of the modelled state: no functions, none selected, rate 0.05, marker (0, 0, 0), idle, no timer; InitialIsIdle |
| Visualizer.Loaded | gradient-descent-visualizer/src/Visualizer.jsx:19-22 | the fetched list is stored and its first entry selected, or none for an empty list; LoadedSelectsFirst |
| Visualizer.Select | gradient-descent-visualizer/src/Visualizer.jsx:110-112 | the selected function becomes `Find` of the chosen name over the list; SelectPicksListed |
| Visualizer.WithLearningRate | gradient-descent-visualizer/src/Visualizer.jsx:129 | the rate input changes only the rate |
| Visualizer.Click | gradient-descent-visualizer/src/Visualizer.jsx:69-75 | no change without a picked point, otherwise the marker becomes (px, py, loss(px, py)); ClickPutsMarkerOnSurface |
| Visualizer.Start | gradient-descent-visualizer/src/Visualizer.jsx:77-88 | no change while running, otherwise a timer over the current function and rate; StartNeverStacksIntervals |
| Visualizer.Tick | gradient-descent-visualizer/src/Visualizer.jsx:80-87 | one firing: the captured updater `Descent` applied to the marker with the captured gradient, loss and rate; TickIsBackendStep and TickKeepsOnSurface |
| Visualizer.Ticks | gradient-descent-visualizer/src/Visualizer.jsx:80-87 | n firings of the registered timer, which never unregisters itself; LiveTicksFollowBackend |
| Visualizer.Pause | gradient-descent-visualizer/src/Visualizer.jsx:90-93 | unregisters the timer and clears `running`; PauseKeepsMarker |
| Visualizer.Reset | gradient-descent-visualizer/src/Visualizer.jsx:95-98 | a pause, then the marker at (0, 0, loss(0, 0)) with the current function; ResetReturnsToOrigin |
| Visualizer.InitialIsIdle | gradient-descent-visualizer/src/Visualizer.jsx:6-14 | the first render is idle with no function and no timer, and its marker (0, 0, 0) sits on the (zero) surface |
| Visualizer.LoadedSelectsFirst | gradient-descent-visualizer/src/Visualizer.jsx:19-22 | the list is stored and its first entry is selected; an empty list selects nothing |
| Visualizer.SelectPicksListed | gradient-descent-visualizer/src/Visualizer.jsx:110-112 | the dropdown selects a listed function with the chosen name, or nothing if and only if none is listed |
| Visualizer.ClickPutsMarkerOnSurface | gradient-descent-visualizer/src/Visualizer.jsx:69-75 | a click without a picked point changes nothing; otherwise the marker moves to (px, py, loss(px, py)); the timer is never touched |
| Visualizer.StartNeverStacksIntervals | gradient-descent-visualizer/src/Visualizer.jsx:77-80 | Start changes nothing while running; otherwise it registers one timer over the current function and rate; the marker stays where it is |
| Visualizer.GradientOfIsBackend | gradient-descent-visualizer/src/Visualizer.jsx:82 | the captured `gradient` closure of a selected function is the backend's gradient for its name |
| Visualizer.TickIsBackendStep | gradient-descent-visualizer/src/Visualizer.jsx:81-86 | with a function selected, a tick moves (x, y) by exactly one backend descent step with the captured rate, and z becomes the captured loss at the new point |
| Visualizer.TickWithoutFunctionStays | gradient-descent-visualizer/src/Visualizer.jsx:81-86 | with no function captured, a tick leaves the marker's x and y in place and sets z to 0 |
| Visualizer.TickKeepsOnSurface | gradient-descent-visualizer/src/Visualizer.jsx:81-86 | while the timer steps on the drawn function, a tick keeps the marker on the drawn surface |
| Visualizer.LiveTicksFollowBackend | gradient-descent-visualizer/src/Visualizer.jsx:80-87 | k live ticks take the marker to the point reached after k backend steps from where it was |
| Visualizer.LiveMatchesBatch | gradient-descent-visualizer/src/Visualizer.jsx:81-86 | the marker after k ticks is point k of the backend's trajectory from the marker's position, for any iteration count of at least k |
| Visualizer.SelectDuringRunKeepsOldFunction | gradient-descent-visualizer/src/Visualizer.jsx:80-87 | the running timer keeps the function it captured: after switching a paraboloid run at (1, 1) with rate 0.1 to "rosenbrock", the next tick puts the marker at (0.8, 0.8, 1.28), a paraboloid step, while the drawn Rosenbrock surface is at 2.6 there, so the marker is off the drawn surface |
| Visualizer.PauseKeepsMarker | gradient-descent-visualizer/src/Visualizer.jsx:90-93 | pause stops and unregisters the timer and leaves the marker unchanged |
| Visualizer.ResetReturnsToOrigin | gradient-descent-visualizer/src/Visualizer.jsx:95-98 | reset stops the timer and sets the marker to (0, 0, loss(0, 0)), on the surface |
| Visualizer.VisualizerComponent.constructor | gradient-descent-visualizer/src/Visualizer.jsx:6-14 | the fields start as the defaults: no functions, none selected, rate 0.05, marker (0, 0, 0), idle |
| Visualizer.VisualizerComponent.LoadFunctions | gradient-descent-visualizer/src/Visualizer.jsx:19-22 | the new state is `Loaded` of the old one with the received list |
| Visualizer.VisualizerComponent.SelectLossFn | gradient-descent-visualizer/src/Visualizer.jsx:110-112 | the selected function becomes the first listed one with the chosen name, or none |
| Visualizer.VisualizerComponent.SetLearningRate | gradient-descent-visualizer/src/Visualizer.jsx:129 | only the learning rate changes |
| Visualizer.VisualizerComponent.HandleClick | gradient-descent-visualizer/src/Visualizer.jsx:69-75 | the new state is `Click` of the old one |
| Visualizer.VisualizerComponent.StartAnimation | gradient-descent-visualizer/src/Visualizer.jsx:77-88 | the new state is `Start` of the old one |
| Visualizer.VisualizerComponent.OnTick | gradient-descent-visualizer/src/Visualizer.jsx:81-86 | the new state is `Tick` of the old one |
| Visualizer.VisualizerComponent.PauseAnimation | gradient-descent-visualizer/src/Visualizer.jsx:90-93 | the new state is `Pause` of the old one |
| Visualizer.VisualizerComponent.ResetAnimation | gradient-descent-visualizer/src/Visualizer.jsx:95-98 | the new state is `Reset` of the old one |

## Left out

- IEEE-754 doubles are not modelled: rounding, overflow to Infinity, NaN, and the divergence of Rosenbrock runs at large rates. All arithmetic is exact.
- `parseFloat` and `parseInt` are not modelled. The inputs are given as a real and an integer, so NaN and non-integer iteration counts are not modelled.
- Network I/O is not modelled.
  - The Compute button's `fetch` is replaced by a direct call to the handler model.
  - The function list the live view fetches is a parameter of `LoadFunctions`. The server that answers that request is not part of this model.
  - The Express setup, CORS, JSON parsing and `listen` are left out.
- The handler's loop takes the gradient as a function value (`Server.Descend` over `Server.GradientOf`) rather than inlining the switch. The closure `GradientOf` is exactly `getGradient` with the name fixed.
- Server.RosenbrockSlopeX states the Rosenbrock x derivative through the backend's formula written out rather than through `Gradient`; the two are the same expression.
- Timers are not modelled: intervals, their delay (`animationSpeed`) and real time. Each firing is an explicit `OnTick` call.
- React's asynchronous, batched setters and stale render closures are not modelled. Setters are synchronous field writes, and each handler runs to completion. The exception is the interval callbacks, whose captured `points`, rate and loss function are kept in `interval`.
- App.AppComponent.RunGradientDescent stops a running timer before installing the new path. The source does not; the code as written is `App.ComputeAsWritten`, and the Findings section explains the difference.
- App.AppComponent.HandleClick assumes the click carries a point. The source reads `event.points[0]` unguarded, which would throw on a click with no point.
- Rendering is left out: the Plotly traces, marker size and colour, `safePoints`, `startZ`, and the per-point heights of the batch trace. The last two use the loss switch modelled by `App.SurfaceLoss`.
- `Home.jsx` holds only static text and a link.

## Findings

| source | as written | input that shows it | evidently intended | confidence | as-written member | corrected member |
|---|---|---|---|---|---|---|
| gradient-descent-visualizer/src/App.js:30-32 | Compute Path stores the new path and rewinds `animatedPoints` and `animationIndex`, but leaves a running interval registered. That interval closed over the old `points`. | Play the default one-step run (rate 0.1, path (3,3), (2.4,2.4)) to index 1. Set the rate to 0.2 and press Compute Path. The new path is (3,3), (1.8,1.8), but Start is refused because the old timer still runs. The next two ticks show (3,3), (2.4,2.4), which is not a prefix of the path. | Stop the running interval before rewinding, as `resetAnimation` does. A later Start then plays the new path from its first point. | medium; not executed | App.ComputeDuringPlaybackShowsOldPath | App.ComputeThenPlayShowsReply |
