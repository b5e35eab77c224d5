/** The simulation of src/data.hpp: the Model that owns the vehicles and the
    views, its run state, the Vehicle's set-up and the decision its update
    task takes on every iteration. Each vehicle's task runs on its own thread
    in the source; here one task is run sequentially, with the commands the
    main thread issues meanwhile given as a schedule. */
module Simulation {
  import opened Cpp
  import opened Wrappers
  import opened Viewport

  /** `Model::modelState`: IDLE = 1, RUNNING = 2, FINISHED = 3. */
  datatype ModelState = Idle | Running | Finished

  /** The three lifecycle calls `start`, `stop` and `exit` of the Model. */
  datatype Command = Start | Stop | Exit

  /** The state a lifecycle call leaves behind. None of them looks at the
      state it overwrites, so `Finished` is not final: `start` after `exit`
      runs again. */
  function After(c: Command, s: ModelState): (t: ModelState)
    ensures t == Running <==> c == Start
    ensures t == Finished <==> c == Exit
  {
    match c
    case Start => Running
    case Stop => Idle
    case Exit => Finished
  }

  /** The state after a sequence of lifecycle calls. */
  function Replay(cmds: seq<Command>, s: ModelState): ModelState {
    if |cmds| == 0 then s else Replay(cmds[1..], After(cmds[0], s))
  }

  /** Only the last of a non-empty sequence of lifecycle calls matters. */
  lemma {:induction false} LastCommandWins(cmds: seq<Command>, s: ModelState, t: ModelState)
    requires |cmds| > 0
    ensures Replay(cmds, s) == Replay(cmds, t) == After(cmds[|cmds| - 1], s)
  {
    if |cmds| > 1 {
      LastCommandWins(cmds[1..], After(cmds[0], s), After(cmds[0], t));
    }
  }

  // ---------------------------------------------------------------------
  // Unit conversions of `Vehicle::set` and `Vehicle::display`

  /** `M_PI` of <cmath>, to the digits the header gives. */
  const Pi: real := 3.14159265358979323846

  function DegToRad(d: real): real {
    d * Pi / 180.0
  }

  function RadToDeg(r: real): real {
    r * 180.0 / Pi
  }

  function KmhToMs(kmh: real): real {
    kmh / 3.6
  }

  function MsToKmh(ms: real): real {
    ms * 3.6
  }

  /** The angle `display` prints is the one `set` was given, and half a turn is pi. */
  lemma DegreesRoundTrip(d: real)
    ensures RadToDeg(DegToRad(d)) == d
    ensures DegToRad(180.0) == Pi && DegToRad(0.0) == 0.0
    ensures (DegToRad(d) < 0.0) == (d < 0.0) && (DegToRad(d) > 0.0) == (d > 0.0)
  {
  }

  /** The speed conversion loses nothing and keeps the direction of travel. */
  lemma SpeedRoundTrip(kmh: real)
    ensures MsToKmh(KmhToMs(kmh)) == kmh
    ensures (KmhToMs(kmh) < 0.0) == (kmh < 0.0)
  {
  }

  // ---------------------------------------------------------------------
  // Kinematics

  /** The part of a vehicle's state `next_state` advances. */
  datatype Pose = Pose(x: real, y: real, theta: real)

  /** The inputs `next_state` reads but does not change: steering angle,
      speed, acceleration (unused) and wheelbase `L`. */
  datatype Drive = Drive(phi: real, v: real, a: real, wheelbase: real)

  /** The body of `next_state`: the pose after a step of the given length in seconds. */
  type Kinematics = (Pose, Drive, real) -> Pose

  /** The pose after `n` steps of length `seconds`. */
  function Advance(kin: Kinematics, p: Pose, d: Drive, seconds: real, n: nat): Pose
    decreases n
  {
    if n == 0 then p else Advance(kin, kin(p, d, seconds), d, seconds, n - 1)
  }

  /** Steps compose: `m` steps after `n` steps are `n + m` steps. */
  lemma {:induction false} AdvanceAdds(kin: Kinematics, p: Pose, d: Drive, seconds: real, n: nat, m: nat)
    ensures Advance(kin, Advance(kin, p, d, seconds, n), d, seconds, m) == Advance(kin, p, d, seconds, n + m)
    decreases n
  {
    if n > 0 {
      AdvanceAdds(kin, kin(p, d, seconds), d, seconds, n - 1, m);
    }
  }

  // ---------------------------------------------------------------------
  // The update task, as a function of the schedule

  /** What the main thread does to the shared state while one iteration
      waits out its period: nothing, or one lifecycle call. */
  function Following(c: Option<Command>, s: ModelState): ModelState {
    match c
    case None => s
    case Some(cmd) => After(cmd, s)
  }

  /** The states the loop test of `Vehicle::task` reads, one per iteration,
      when the task starts in state `s` and the main thread acts by `sched`. */
  function Observed(s: ModelState, sched: seq<Option<Command>>): (obs: seq<ModelState>)
    ensures |obs| == |sched| + 1 && obs[0] == s
    decreases |sched|
  {
    if |sched| == 0 then [s] else [s] + Observed(Following(sched[0], s), sched[1..])
  }

  /** The number of iterations the loop runs within the schedule. */
  function Iterations(s: ModelState, sched: seq<Option<Command>>): nat
    decreases |sched|
  {
    if s == Finished || |sched| == 0 then 0 else 1 + Iterations(Following(sched[0], s), sched[1..])
  }

  /** The number of those iterations that call `next_state`. */
  function Steps(s: ModelState, sched: seq<Option<Command>>): nat
    decreases |sched|
  {
    if s == Finished || |sched| == 0 then 0
    else (if s == Running then 1 else 0) + Steps(Following(sched[0], s), sched[1..])
  }

  /** The shared state once the loop has stopped or the schedule is over. */
  function Settled(s: ModelState, sched: seq<Option<Command>>): ModelState
    decreases |sched|
  {
    if s == Finished || |sched| == 0 then s else Settled(Following(sched[0], s), sched[1..])
  }

  /** How many states of `obs` are `Running`. */
  function CountRunning(obs: seq<ModelState>): nat {
    if |obs| == 0 then 0 else (if obs[0] == Running then 1 else 0) + CountRunning(obs[1..])
  }

  /** The loop runs until the first `Finished` it reads, or to the end of
      the schedule, and it steps on exactly the iterations that read `Running`. */
  lemma {:induction false} TaskDecision(s: ModelState, sched: seq<Option<Command>>)
    ensures Iterations(s, sched) <= |sched|
    ensures forall i :: 0 <= i < Iterations(s, sched) ==> Observed(s, sched)[i] != Finished
    ensures Iterations(s, sched) == |sched| || Observed(s, sched)[Iterations(s, sched)] == Finished
    ensures Steps(s, sched) == CountRunning(Observed(s, sched)[..Iterations(s, sched)])
    ensures Settled(s, sched) == Observed(s, sched)[Iterations(s, sched)]
    decreases |sched|
  {
    if s != Finished && |sched| > 0 {
      var t := Following(sched[0], s);
      var rest := sched[1..];
      TaskDecision(t, rest);
      var obs := Observed(s, sched);
      assert obs == [s] + Observed(t, rest);
      assert obs[..Iterations(s, sched)] == [s] + Observed(t, rest)[..Iterations(t, rest)];
      assert forall i :: 1 <= i < Iterations(s, sched) ==> obs[i] == Observed(t, rest)[i - 1];
    } else {
      assert Observed(s, sched)[..0] == [];
    }
  }

  /** An `exit` stops the task at the latest on the iteration after it was
      issued: nothing the main thread does later causes another step. */
  lemma {:induction false} NoStepAfterExit(s: ModelState, sched: seq<Option<Command>>, k: nat)
    requires k < |sched| && sched[k] == Some(Exit)
    ensures Iterations(s, sched) <= k + 1
    ensures Steps(s, sched) == Steps(s, sched[..k + 1])
    ensures Settled(s, sched) == Finished
    decreases k
  {
    if s != Finished {
      var t := Following(sched[0], s);
      if k == 0 {
        assert t == Finished;
      } else {
        assert sched[1..][k - 1] == Some(Exit);
        NoStepAfterExit(t, sched[1..], k - 1);
        assert sched[..k + 1][1..] == sched[1..][..k];
      }
    }
  }

  /** A vehicle whose task never reads `Running` never moves: when the model
      is not running and nobody calls `start`, no step happens. */
  lemma {:induction false} NoStepWithoutStart(s: ModelState, sched: seq<Option<Command>>)
    requires s != Running
    requires forall i :: 0 <= i < |sched| ==> sched[i] != Some(Start)
    ensures Steps(s, sched) == 0
    decreases |sched|
  {
    if s != Finished && |sched| > 0 {
      assert sched[0] != Some(Start);
      NoStepWithoutStart(Following(sched[0], s), sched[1..]);
    }
  }

  /** Once the model has been started and is left alone, every iteration steps. */
  lemma {:induction false} RunningAlwaysSteps(sched: seq<Option<Command>>)
    requires forall i :: 0 <= i < |sched| ==> sched[i] == None
    ensures Steps(Running, sched) == Iterations(Running, sched) == |sched|
    decreases |sched|
  {
    if |sched| > 0 {
      RunningAlwaysSteps(sched[1..]);
    }
  }

  // ---------------------------------------------------------------------
  // The Model and the Vehicle

  /** What `Model::display` and `Model::render` hand to the console or the
      renderer: a view or a vehicle shown as seen from a view, the outline
      of a view, or a vehicle drawn as seen from a view. */
  datatype Call =
    | ShowView(viewId: int)
    | ShowVehicle(index: int, viewId: int)
    | DrawBorder(rect: Rect)
    | DrawVehicle(index: int, viewId: int)

  class Model {
    var state: ModelState
    var vehicles: seq<Vehicle>
    var views: seq<View>
    /** The period of every vehicle's task, in milliseconds. A public
        mutable `float` in the source that nothing writes after construction,
        so a constant here. */
    const dt: real

    /** Each vehicle is owned by one `unique_ptr` in the vector. */
    ghost predicate Valid()
      reads this
    {
      forall i, j :: 0 <= i < j < |vehicles| ==> vehicles[i] != vehicles[j]
    }

    constructor()
      ensures Valid()
      ensures state == Idle && vehicles == [] && views == [] && dt == 10.0
    {
      state := Idle;
      vehicles := [];
      views := [];
      dt := 10.0;
    }

    /** Appends the vehicle and returns its index, the old number of vehicles. */
    method AddVehicle(v: Vehicle) returns (index: int)
      requires Valid() && v !in vehicles
      modifies this
      ensures Valid()
      ensures vehicles == old(vehicles) + [v] && views == old(views) && state == old(state)
      ensures index == |vehicles| - 1 == |old(vehicles)|
    {
      vehicles := vehicles + [v];
      index := |vehicles| - 1;
    }

    method AddView(v: View)
      requires Valid()
      modifies this
      ensures Valid()
      ensures views == old(views) + [v] && vehicles == old(vehicles) && state == old(state)
    {
      views := views + [v];
    }

    method Start()
      requires Valid()
      modifies this
      ensures Valid()
      ensures state == Running && vehicles == old(vehicles) && views == old(views)
    {
      state := Running;
    }

    method Stop()
      requires Valid()
      modifies this
      ensures Valid()
      ensures state == Idle && vehicles == old(vehicles) && views == old(views)
    {
      state := Idle;
    }

    method Exit()
      requires Valid()
      modifies this
      ensures Valid()
      ensures state == Finished && vehicles == old(vehicles) && views == old(views)
    {
      state := Finished;
    }

    /** One lifecycle call, as the main thread issues it. */
    method Issue(c: Command)
      requires Valid()
      modifies this
      ensures Valid()
      ensures state == After(c, old(state)) && vehicles == old(vehicles) && views == old(views)
    {
      match c
      case Start => Start();
      case Stop => Stop();
      case Exit => Exit();
    }

    /** `setVehicle`: `set` on the vehicle with that index; no other vehicle changes. */
    method SetVehicle(id: int, x: real, y: real, theta: real, phi: real, v: real, a: real)
      requires Valid() && 0 <= id < |vehicles|
      modifies vehicles[id]
      ensures vehicles[id].x == x && vehicles[id].y == y && vehicles[id].a == a
      ensures vehicles[id].theta == DegToRad(theta) && vehicles[id].phi == DegToRad(phi)
      ensures vehicles[id].v == KmhToMs(v)
      ensures forall i :: 0 <= i < |vehicles| && i != id ==> unchanged(vehicles[i])
    {
      vehicles[id].Set(x, y, theta, phi, v, a);
    }

    /** `Model::render`: with no view nothing is drawn; otherwise only the
        first view draws, its outline first, then every vehicle in order. */
    method Render() returns (calls: seq<Call>)
      ensures |views| == 0 ==> calls == []
      ensures |views| > 0 ==> |calls| == |vehicles| + 1 && calls[0] == DrawBorder(BorderRect(views[0]))
      ensures |views| > 0 ==> forall i :: 0 <= i < |vehicles| ==> calls[i + 1] == DrawVehicle(i, views[0].id)
    {
      calls := [];
      if |views| > 0 {
        var view := views[0];
        calls := [DrawBorder(BorderRect(view))];
        var i := 0;
        while i < |vehicles|
          invariant 0 <= i <= |vehicles|
          invariant |calls| == i + 1 && calls[0] == DrawBorder(BorderRect(view))
          invariant forall j :: 0 <= j < i ==> calls[j + 1] == DrawVehicle(j, view.id)
        {
          calls := calls + [DrawVehicle(i, view.id)];
          i := i + 1;
        }
      }
    }

    /** `Model::display`: with no view nothing is shown; otherwise the first
        view shows itself, then every vehicle in order as seen from it. */
    method Display() returns (calls: seq<Call>)
      ensures |views| == 0 ==> calls == []
      ensures |views| > 0 ==> |calls| == |vehicles| + 1 && calls[0] == ShowView(views[0].id)
      ensures |views| > 0 ==> forall i :: 0 <= i < |vehicles| ==> calls[i + 1] == ShowVehicle(i, views[0].id)
    {
      calls := [];
      if |views| > 0 {
        var view := views[0];
        calls := [ShowView(view.id)];
        var i := 0;
        while i < |vehicles|
          invariant 0 <= i <= |vehicles|
          invariant |calls| == i + 1 && calls[0] == ShowView(view.id)
          invariant forall j :: 0 <= j < i ==> calls[j + 1] == ShowVehicle(j, view.id)
        {
          calls := calls + [ShowVehicle(i, view.id)];
          i := i + 1;
        }
      }
    }
  }

  class Vehicle {
    const id: int
    const w: real
    const h: real
    const f: real
    const b: real
    /** The wheelbase, `h - f - b`. */
    const L: real
    const color: Color
    const model: Model
    var x: real
    var y: real
    var theta: real
    var phi: real
    var v: real
    var a: real

    /** Takes as id the number of vehicles the model holds, which is the
        index `addVehicle` gives it when it is added next. */
    constructor(w: real, h: real, f: real, b: real, color: Color, m: Model)
      ensures id == |m.vehicles| && model == m
      ensures this.w == w && this.h == h && this.f == f && this.b == b && this.color == color
      ensures L == h - f - b && L + f + b == h
      ensures CurrentPose() == Pose.Pose(0.0, 0.0, 0.0) && CurrentDrive() == Drive.Drive(0.0, 0.0, 0.0, L)
    {
      id := |m.vehicles|;
      this.w := w;
      this.h := h;
      this.f := f;
      this.b := b;
      L := h - f - b;
      this.color := color;
      model := m;
      x, y, theta, phi, v, a := 0.0, 0.0, 0.0, 0.0, 0.0, 0.0;
    }

    function CurrentPose(): Pose
      reads this
    {
      Pose.Pose(x, y, theta)
    }

    function CurrentDrive(): Drive
      reads this
    {
      Drive.Drive(phi, v, a, L)
    }

    /** `set`: the position and the acceleration as given, the angles from
        degrees to radians and the speed from km/h to m/s. */
    method Set(x: real, y: real, theta: real, phi: real, v: real, a: real)
      modifies this
      ensures this.x == x && this.y == y && this.a == a
      ensures this.theta == DegToRad(theta) && this.phi == DegToRad(phi)
      ensures this.v == KmhToMs(v)
    {
      this.x := x;
      this.y := y;
      this.theta := DegToRad(theta);
      this.phi := DegToRad(phi);
      this.v := KmhToMs(v);
      this.a := a;
    }

    /** `next_state`: one step of the model's period, converted to seconds;
        the steering, the speed and the acceleration stay as they were. */
    method NextState(kin: Kinematics)
      modifies this
      ensures CurrentPose() == kin(old(CurrentPose()), old(CurrentDrive()), model.dt / 1000.0)
      ensures CurrentDrive() == old(CurrentDrive())
    {
      var p := kin(CurrentPose(), CurrentDrive(), model.dt / 1000.0);
      x, y, theta := p.x, p.y, p.theta;
    }

    /** `task`: while the model is not finished, step if it is running, then
        wait out the period, during which the main thread may issue
        `sched[k]`. Returns the number of iterations run. */
    method Task(sched: seq<Option<Command>>, kin: Kinematics) returns (iterations: nat)
      requires model.Valid()
      modifies this, model
      ensures model.Valid()
      ensures iterations == Iterations(old(model.state), sched)
      ensures model.state == Settled(old(model.state), sched)
      ensures CurrentPose() == Advance(kin, old(CurrentPose()), old(CurrentDrive()), model.dt / 1000.0, Steps(old(model.state), sched))
      ensures CurrentDrive() == old(CurrentDrive())
      ensures model.vehicles == old(model.vehicles) && model.views == old(model.views)
    {
      var k := 0;
      var steps := 0;
      while k < |sched| && model.state != Finished
        invariant 0 <= k <= |sched|
        invariant Iterations(old(model.state), sched) == k + Iterations(model.state, sched[k..])
        invariant Steps(old(model.state), sched) == steps + Steps(model.state, sched[k..])
        invariant Settled(old(model.state), sched) == Settled(model.state, sched[k..])
        invariant CurrentPose() == Advance(kin, old(CurrentPose()), old(CurrentDrive()), model.dt / 1000.0, steps)
        invariant CurrentDrive() == old(CurrentDrive())
        invariant model.vehicles == old(model.vehicles) && model.views == old(model.views)
        invariant model.Valid()
        decreases |sched| - k
      {
        assert sched[k..][1..] == sched[k + 1..];
        if model.state == Running {
          NextState(kin);
          AdvanceAdds(kin, old(CurrentPose()), old(CurrentDrive()), model.dt / 1000.0, steps, 1);
          steps := steps + 1;
        }
        if sched[k].Some? {
          model.Issue(sched[k].value);
        }
        k := k + 1;
      }
      iterations := k;
    }
  }

  // ---------------------------------------------------------------------
  // Set-up as the demo program does it

  /** A vehicle built for a model and added to it right away, as every
      caller does: its id is the index `addVehicle` returns. */
  method Spawn(m: Model, w: real, h: real, f: real, b: real, color: Color) returns (v: Vehicle, index: int)
    requires m.Valid()
    modifies m
    ensures m.Valid() && fresh(v)
    ensures m.vehicles == old(m.vehicles) + [v] && m.views == old(m.views) && m.state == old(m.state)
    ensures v.id == index == |old(m.vehicles)| && v.model == m && v.L == h - f - b
  {
    v := new Vehicle(w, h, f, b, color, m);
    index := m.AddVehicle(v);
  }

  /** The vehicles of the demo program: four of the same size and different
      colours, each placed and aimed with `setVehicle`. */
  method Populate(m: Model)
    requires m.Valid() && m.vehicles == []
    modifies m
    ensures m.Valid() && m.views == old(m.views) && m.state == old(m.state)
    ensures |m.vehicles| == 4 && forall i :: 0 <= i < 4 ==> m.vehicles[i].id == i && m.vehicles[i].model == m
    ensures m.vehicles[0].x == 0.0 && m.vehicles[0].y == 0.0 && m.vehicles[0].theta == DegToRad(45.0)
    ensures m.vehicles[1].x == 0.0 && m.vehicles[1].y == 6.0 && m.vehicles[1].theta == DegToRad(120.0)
    ensures m.vehicles[2].x == -3.0 && m.vehicles[2].y == -7.0 && m.vehicles[2].theta == DegToRad(90.0)
    ensures m.vehicles[3].x == 4.0 && m.vehicles[3].y == -7.0 && m.vehicles[3].theta == DegToRad(140.0)
  {
    var v0, i0 := Spawn(m, 2.0, 4.0, 0.5, 0.5, Color(0, 255, 0, 200));
    var v1, i1 := Spawn(m, 2.0, 4.0, 0.5, 0.5, Color(255, 0, 0, 200));
    var v2, i2 := Spawn(m, 2.0, 4.0, 0.5, 0.5, Color(0, 0, 255, 200));
    var v3, i3 := Spawn(m, 2.0, 4.0, 0.5, 0.5, Color(255, 255, 0, 255));
    assert m.vehicles == [v0, v1, v2, v3];
    m.SetVehicle(0, 0.0, 0.0, 45.0, 25.0, 0.05, 0.0);
    m.SetVehicle(1, 0.0, 6.0, 120.0, 20.0, 0.1, 0.0);
    m.SetVehicle(2, -3.0, -7.0, 90.0, 15.0, 0.07, 0.0);
    m.SetVehicle(3, 4.0, -7.0, 140.0, -15.0, 0.02, 0.0);
  }

  /** The set-up of the demo program: its vehicles, one view of 30 x 40
      metres on 800 x 600 pixels, then `start`. */
  method Demo() returns (m: Model)
    ensures fresh(m) && m.Valid() && m.state == Running && m.dt == 10.0
    ensures |m.vehicles| == 4 && forall i :: 0 <= i < 4 ==> m.vehicles[i].id == i && m.vehicles[i].model == m
    ensures m.views == [NewView(0.0, 0.0, 30.0, 40.0, 800, 600, 0)]
  {
    m := new Model();
    Populate(m);
    var view := NewView(0.0, 0.0, 30.0, 40.0, 800, 600, |m.views|);
    m.AddView(view);
    m.Start();
  }
}
