# 2djitsu: a verified model of the simulation core

2djitsu is a small SDL demo that draws simple vehicles in a top-down world.
Its logic sits in one header, `src/data.hpp`, with an earlier version of it
in `code/data.hpp`. This project models that logic in Dafny and proves what
it promises:

- **The Model** (`Simulation.Model`): a run state (`IDLE`, `RUNNING`,
  `FINISHED`), and append-only registries of vehicles and views.
  `start`/`stop`/`exit` overwrite the state unconditionally. `addVehicle`
  returns the new vehicle's index. `display`/`render` delegate to the first
  view only, or do nothing when there is none.
- **The Vehicle** (`Simulation.Vehicle`):
  - its constructor takes as id the number of vehicles registered and sets
    the wheelbase `L = h - f - b`;
  - `set` converts degrees to radians and km/h to m/s;
  - its update task (`task`) steps the pose on every iteration that finds
    the model `RUNNING`, and stops once it finds the model `FINISHED`.
  - The task runs on its own thread in the source. Here it runs
    sequentially. Between iterations the main thread may issue one
    lifecycle call, given as a schedule.
  - The body of `next_state` is a parameter (`Kinematics`).
- **The View** (`Viewport`):
  - a world window (centre and extent, in metres) fitted into a screen
    rectangle with one uniform scale, the smaller of the two per-axis ratios;
  - the projections `to_scr_x`, `to_scr_y` and `to_scr_d` from world
    coordinates to pixels;
  - the float-to-int conversions of C++ (truncation toward zero) and the
    integer `/ 2` written out in `Cpp`.
- **The configuration reader** (`ConfigReader`): the analysis `readConfig`
  applies to each line. For each line it computes:
  - the indentation, i.e. the number of leading spaces;
  - whether the first non-space character is a dash;
  - the current block, i.e. the name of the last line ending in a colon.
- **The earlier header** (`Legacy`): a two-state Model (`IDLE`,
  `STARTED`), vehicles that are fixed coloured rectangles drawn without
  inverting the y axis, and the same View constructor.

Floats are modelled as `real`. Every `(int)` conversion and every integer
division is written out explicitly.

## Model

| member | source | states |
|---|---|---|
| Cpp.Trunc | src/data.hpp:397-408 | `(int)` of a float drops the fraction toward zero: the result is within one unit of the argument, on the same side of zero, and never further from zero |
| Cpp.HalfTowardZero | src/data.hpp:362-363 | `scr_w/2` on `int`s rounds toward zero, for negative operands too |
| Viewport.Scale | src/data.hpp:354-357 | the scale is at most `scr_w/w` and at most `scr_h/h`, and equals one of them; when one extent is zero its ratio is infinite or NaN and is never the smaller, so the scale is the other ratio |
| Viewport.NewView | src/data.hpp:351-367 | the view keeps its arguments, takes the number of registered views as id, and is centred: `x0 + w/2 == x` and `y0 + h/2 == y`; the scale is the constructor's minimum and the screen corners are the truncated `scr/2 - ext/2*scale`; the earlier header's constructor (code/data.hpp:81-97) is the same computation |
| Viewport.ScaleFits | src/data.hpp:354-357 | for a window of non-negative extent, the scale is non-negative and both scaled extents fit the screen |
| Viewport.NewViewFits | src/data.hpp:351-367 | every view built over a window of non-negative extent fits its screen on both axes |
| Viewport.ZeroWidthView | src/data.hpp:354-363 | a window of zero width takes its scale from the height and collapses to the middle column, `sx == scr_w/2` |
| Viewport.ZeroHeightView | src/data.hpp:354-363 | a window of zero height, even over a screen of zero height, takes its scale from the width and collapses to the middle row, `sy == scr_h/2` |
| Viewport.ProjectionAnchors | src/data.hpp:397-408 | `to_scr_x(x0) == sx`, `to_scr_y(-y0) == sy` and `to_scr_d(0) == 0` |
| Viewport.ToScrXMonotone | src/data.hpp:397-400 | screen x never decreases as world x grows |
| Viewport.ToScrYAntitone | src/data.hpp:401-404 | screen y never increases as world y grows: the y axis is inverted |
| Viewport.ToScrDOdd | src/data.hpp:405-408 | a length and its opposite map to opposite pixel counts |
| Viewport.ToScrXTruncates | src/data.hpp:397-400 | `ToScrX`, the model of `to_scr_x`: the column is `sx` plus the world offset from the window's left edge times the scale, with the fraction dropped toward zero, so less than one pixel off |
| Viewport.ToScrYTruncates | src/data.hpp:401-404 | `ToScrY`, the model of `to_scr_y`: the row is `sy` plus the offset of the negated world y from `y0` times the scale, with the fraction dropped toward zero |
| Viewport.ToScrDTruncates | src/data.hpp:405-408 | `ToScrD`, the model of `to_scr_d`: a length in pixels is the length times the scale with the fraction dropped toward zero |
| Viewport.BorderIsProjectedWindow | src/data.hpp:383-386 | `BorderRect`, the outline `View::render` draws, runs exactly from the projection of the window's left edge to that of its right edge, and from `to_scr_y(-y0)` to `to_scr_y(-(y0 + h))` |
| Viewport.MarginsBalanced | src/data.hpp:362-363 | `Corner`, the screen corner the constructor computes, centres the scaled window: on each axis the margins before and after the outline differ by at most 3 pixels |
| Viewport.CentreX | src/data.hpp:359-363 | the world centre `x` lands within 1.5 pixels of the screen's middle column |
| Viewport.WindowFitsX | src/data.hpp:397-400 | every world x inside the window maps to a column in `[0, scr_w]` |
| Viewport.BorderFits | src/data.hpp:380-387 | the outline `View::render` draws lies inside the screen on both axes |
| Viewport.MirroredWindowFitsY | src/data.hpp:401-404 | as written, every world y whose negation lies in the window maps to a row in `[0, scr_h]` |
| Viewport.DemoViewScale | src/2dj.cpp:132 | the demo's 30 x 40 m view on 800 x 600 px has 15 px per metre and its corner at (175, 0) |
| Viewport.OffCentreViewCounterexample | src/data.hpp:401-404 | a view centred at (0, 10) puts its own centre on row 0 and the top of its window 300 px above the screen |
| Viewport.UprightCentre | src/data.hpp:359-363 | with the corrected y projection `ToScrYUpright`, the world centre `y` lands within 1.5 pixels of the screen's middle row |
| Viewport.UprightFits | src/data.hpp:401-404 | with the corrected y projection, every world y inside the window maps to a row in `[0, scr_h]` |
| Viewport.UprightAntitone | src/data.hpp:401-404 | the corrected y projection still inverts the y axis |
| Viewport.UprightAgreesWhenCentredAtZero | src/data.hpp:401-404 | for a view centred on y = 0, the projection as written and the corrected one agree everywhere |
| Simulation.After | src/data.hpp:40-50 | a lifecycle call leaves `RUNNING` exactly for `start` and `FINISHED` exactly for `exit`, whatever the state was |
| Simulation.LastCommandWins | src/data.hpp:40-50 | after a non-empty sequence of lifecycle calls the state depends only on the last call, not on the starting state, so `FINISHED` is not final |
| Simulation.DegreesRoundTrip | src/data.hpp:176-177 | converting degrees to radians (`DegToRad`) and back (as `Vehicle::display` does at line 418) gives the original angle, 180 degrees is pi, and the sign is kept: negative, zero and positive angles stay so |
| Simulation.SpeedRoundTrip | src/data.hpp:178 | the km/h to m/s conversion `KmhToMs` is undone by multiplying by 3.6 and keeps the direction of travel |
| Simulation.AdvanceAdds | src/data.hpp:182-201 | `m` pose updates after `n` updates are `n + m` updates |
| Simulation.Observed | src/data.hpp:209-215 | the loop test reads one state per scheduled wait plus the starting state |
| Simulation.TaskDecision | src/data.hpp:209-215 | the loop runs until the first `FINISHED` it reads (or the end of the schedule), and the number of `next_state` calls is the number of `RUNNING` states read before that |
| Simulation.NoStepAfterExit | src/data.hpp:209-215 | once `exit` is issued, at most one more iteration runs, and nothing issued later causes another `next_state` |
| Simulation.NoStepWithoutStart | src/data.hpp:209-215 | a task that starts outside `RUNNING` and never sees `start` never calls `next_state` |
| Simulation.RunningAlwaysSteps | src/data.hpp:209-215 | a task that starts in `RUNNING` and is left alone calls `next_state` on every iteration |
| Simulation.Model.constructor | src/data.hpp:24-29 | a fresh Model is `IDLE`, has no vehicles and no views, and a 10 ms period |
| Simulation.Model.AddVehicle | src/data.hpp:31-34 | appends exactly the given vehicle, leaves the views and the state alone, and returns the old vehicle count, which is the new size minus 1 |
| Simulation.Model.AddView | src/data.hpp:36-38 | appends exactly the given view and leaves the vehicles and the state alone |
| Simulation.Model.Start | src/data.hpp:40-42 | the state becomes `RUNNING` whatever it was; nothing else changes |
| Simulation.Model.Stop | src/data.hpp:44-46 | the state becomes `IDLE` whatever it was; nothing else changes |
| Simulation.Model.Exit | src/data.hpp:48-50 | the state becomes `FINISHED` whatever it was; nothing else changes |
| Simulation.Model.Issue | src/data.hpp:40-50 | any one lifecycle call changes the state as `After` says and nothing else |
| Simulation.Model.SetVehicle | src/data.hpp:501-503 | `set` with the given arguments on `vehicles[id]`, and every other vehicle unchanged |
| Simulation.Model.Render | src/data.hpp:495-499 | nothing is drawn without a view; otherwise the first view's outline is drawn, then every vehicle in index order, all as seen from the first view |
| Simulation.Model.Display | src/data.hpp:489-493 | nothing is shown without a view; otherwise the first view is shown, then every vehicle in index order, as seen from the first view |
| Simulation.Vehicle.constructor | src/data.hpp:155-163 | the id is the number of vehicles registered, the wheelbase is `h - f - b`, and the vehicle belongs to the given model |
| Simulation.Vehicle.Set | src/data.hpp:172-180 | `x`, `y` and `a` are stored as given, `theta` and `phi` in radians, and `v` in m/s |
| Simulation.Vehicle.NextState | src/data.hpp:182-201 | the pose advances by one period of `dt / 1000` seconds; steering, speed and acceleration are unchanged |
| Simulation.Vehicle.Task | src/data.hpp:203-227 | the iterations, the final state and the final pose follow `Iterations`, `Settled` and the pose after `Steps` updates; the model's registries are unchanged |
| Simulation.Spawn | src/2dj.cpp:122-125 | a vehicle constructed for a model and then added to it gets as id the index `addVehicle` returns |
| Simulation.Populate | src/2dj.cpp:122-130 | the demo's four vehicles have ids 0 to 3, and each ends up at the position and heading its own `setVehicle` call gives, undisturbed by the others |
| Simulation.Demo | src/2dj.cpp:118-136 | after the demo's set-up the model is running, with four vehicles whose ids are their indices and the one 30 x 40 m view |
| ConfigReader.LeadingSpaces | src/data.hpp:524-528 | `space_count` is the length of the maximal prefix of spaces, so it is at most the line length |
| ConfigReader.LeadingSpacesUnique | src/data.hpp:524-528 | any count that covers only spaces and stops at a non-space or at the end is that length |
| ConfigReader.IsDashMeansFirstNonSpaceIsDash | src/data.hpp:530-531 | `IsDash`, the model of `is_dash`, holds exactly when some character is a dash with only spaces before it |
| ConfigReader.BlockAfter | src/data.hpp:519-522 | a line ending in `:` (`IsHeader`) sets the block to the line without that colon; any other line leaves the block unchanged |
| ConfigReader.AnalyseLine | src/data.hpp:517-535 | an empty line gives no report and keeps the block; otherwise the block is updated first and the report gives the leading-space count, the dash flag, the updated block and the line |
| ConfigReader.ReadConfig | src/data.hpp:505-541 | a file that cannot be opened gives no report; otherwise the reports are those of its lines read in order, starting from an empty block |
| ConfigReader.ReportsCoverNonEmptyLines | src/data.hpp:516-535 | in `Reports`, what `readConfig` prints for a list of lines, exactly the non-empty lines are reported, once each and in file order, each with its own indentation and dash flag |
| ConfigReader.FinalBlockAppend | src/data.hpp:519-522 | reading one more line updates the block exactly as that line alone does |
| ConfigReader.FinalBlockIsLastHeader | src/data.hpp:519-522 | the last header wins: after any lines the block is the name of the last line ending in `:`, or the initial block if there is none |
| ConfigReader.ReportsAppend | src/data.hpp:516-535 | one more line adds its own report, if it is non-empty, after the earlier ones |
| ConfigReader.ReportOfNextLine | src/data.hpp:519-535 | a line's report names the last header up to and including that line, so a header line reports its own name |
| Legacy.RectIsUnmirroredProjection | code/data.hpp:148-151 | `RenderRect`, the earlier rectangle, is the newer header's projection with y not negated |
| Legacy.RectRowGrowsWithY | code/data.hpp:148-151 | without the inversion, the rectangle's row grows with world y |
| Legacy.RectAnchor | code/data.hpp:148-149 | a vehicle at the window corner `(x0, y0)` is drawn from the screen corner `(sx, sy)` |
| Legacy.RectCornerOnScreen | code/data.hpp:148-149 | a vehicle whose corner lies in the world window is drawn from a pixel on screen |
| Legacy.Model.constructor | code/data.hpp:16-25 | a fresh Model is `IDLE`, with no vehicles and no views |
| Legacy.Model.AddVehicle | code/data.hpp:27-29 | appends exactly the given vehicle and leaves the views and the state alone |
| Legacy.Model.AddView | code/data.hpp:31-33 | appends exactly the given view and leaves the vehicles and the state alone |
| Legacy.Model.Start | code/data.hpp:35-37 | the state becomes `STARTED` whatever it was |
| Legacy.Model.Stop | code/data.hpp:39-41 | the state becomes `IDLE` whatever it was |
| Legacy.Model.Render | code/data.hpp:163-167 | nothing is drawn without a view; otherwise the first view's outline, then each vehicle's rectangle in its colour, in index order, as seen from the first view |
| Legacy.Model.Display | code/data.hpp:157-161 | nothing is shown without a view; otherwise the first view is shown, then for each vehicle in index order its rectangle as seen from the first view (code/data.hpp:127-142), that view again, and the vehicle's own line |
| Legacy.Spawn | code/data.hpp:58-60 | a vehicle constructed for a model and then added to it has as id its index in the model |

## Left out

- Threads: `startTask`, the `std::thread` member and the join in the destructor (src/data.hpp:165-170, 229-231) are not modelled. One task is run sequentially.
- Vehicle.Task: the source reads the shared state twice per iteration, at the loop test and at the `RUNNING` test. Another thread could change it between the two reads. The model reads it once per iteration, and commands arrive only during the wait. Unsynchronised access to the pose is not modelled either.
- Vehicle.Task: the schedule is finite. The model follows the loop only for as many iterations as the schedule has entries.
- The clock, the sleep and the elapsed-time wait (src/data.hpp:211, 217-221) are not modelled. Each iteration takes exactly one period.
- Vehicle.NextState: the kinematic body (cos, sin, tan; src/data.hpp:185-194) is a parameter of type `Kinematics`. It receives the pose, the drive inputs and the step length `dt / 1000` in seconds. The scratch fields `dx`, `dy` and `dtheta` are not modelled. Neither is the infinite or undefined yaw rate the floats give when `L == 0`; the source does not reject that case.
- Simulation.Model.Render, Simulation.Model.Display, Legacy.Model.Render, Legacy.Model.Display: the `Model&` back-reference of View and Vehicle is not modelled. In the source a view loops over the vehicles of its own model, and a vehicle looks its view up as `views[view_id]` in its own model. The model loops over the vehicles of the Model that holds the view, and the earlier header's rectangles are projected through that Model's first view. The two agree when every view and vehicle was built for the Model that holds it and added right after construction, so that the first view's id is 0, as `Simulation.Demo` builds them.
- Simulation.Model: `dt` is a public mutable `float` in the source. Nothing writes it after construction, so the model makes it a constant.
- Vehicle.constructor: the source leaves the pose and drive fields uninitialised until `set` is called. The model starts them at 0.
- Floats are modelled as reals, so single-precision rounding is not modelled. Infinities and NaNs are not either. `NewView` accepts a window with one zero extent whenever that axis's ratio, `+inf` or NaN, is never the smaller one: a zero width over a positive screen width, or a zero height over a screen height that is not negative. It excludes the windows whose scale would not be a finite number: both extents zero (an infinite or NaN scale), a zero width over a screen width of zero (a NaN ratio, which the comparison then keeps) or a negative one, and a zero height over a negative screen height (`-inf`). A negative zero extent is not distinguished from zero either.
- Conversions of out-of-range floats to `int` are not modelled, and neither is overflow of `vehicles.size() - 1` when it is narrowed to `int`.
- Drawing and console output: the vehicle geometry (`rotatePoint`, `drawRectangle`, `drawBody`, `Vehicle::render` in src/data.hpp) and SDL. Each drawing or printing step is modelled as one `Call` value: the outline, a vehicle drawn or shown as seen from a view, or a rectangle of the earlier header drawn in its colour or printed. The printed text itself is not modelled.
- ConfigReader.ReadConfig: opening and reading the file are not modelled. The input is the file's lines, already split, or `None` when the file cannot be opened. The console line each report is printed as is not modelled, and neither is the unused `indent` variable.
- The event loop, window and texture set-up of src/2dj.cpp and code/2dj.cpp are not part of this model. Neither is the stub root `data.hpp`. The commented-out control helpers (src/data.hpp:237-326) are left out too.
- Code versus design: `start` after `exit` sets `RUNNING` again. `FINISHED` is not guarded, though a vehicle task that has already ended stays ended. The model follows the code.

## Findings

| source | as written | input that shows it | evidently intended | confidence | as-written member | corrected member |
|---|---|---|---|---|---|---|
| src/data.hpp:401-404 | `to_scr_y` negates the world y before subtracting `y0 = y - h/2`. This mirrors the view's world window about y = 0 | `View(0, 10, 30, 40, 800, 600)`: world centre y = 10 maps to row 0, and the top of the window (y = 30) maps to row -300 | the window's top edge `y0 + h` maps to `sy` and its centre to the middle row, i.e. `sy + (y0 + h - y) * scale` | medium, not executed; the demo only builds views centred on y = 0, where both agree | Viewport.OffCentreViewCounterexample | Viewport.ToScrYUpright (proved by Viewport.UprightCentre, Viewport.UprightFits) |
