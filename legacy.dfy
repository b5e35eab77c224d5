/** The earlier header code/data.hpp: a two-state Model, vehicles that are
    plain coloured rectangles fixed at construction, and the same View as
    the newer header. */
module Legacy {
  import opened Cpp
  import opened Viewport

  /** `Model::modelState`: IDLE = 1, STARTED = 2. */
  datatype ModelState = Idle | Started

  /** What `Model::display` and `Model::render` of the earlier header hand
      to the console or the renderer: a view or a vehicle's own line shown,
      the outline of a view, a vehicle's rectangle drawn in its colour, or
      that rectangle printed. */
  datatype Call =
    | ShowView(viewId: int)
    | ShowVehicle(index: int, viewId: int)
    | DrawBorder(rect: Rect)
    | DrawBox(rect: Rect, color: Color)
    | ShowRect(rect: Rect)

  /** A vehicle of the earlier header: nothing changes it after construction. */
  datatype Vehicle = Vehicle(id: int, x: real, y: real, w: real, h: real, color: Color)

  /** The rectangle `Vehicle::render` outlines and `Vehicle::display` prints:
      the vehicle's corner projected with the y axis pointing down the
      screen, and its extent scaled. */
  function RenderRect(v: Vehicle, view: View): Rect {
    Rect(Project(view.sx, v.x - view.x0, view.scale), Project(view.sy, v.y - view.y0, view.scale),
         ToScrD(view, v.w), ToScrD(view, v.h))
  }

  /** The earlier rectangle is the newer projection of the vehicle mirrored
      in y: where the newer header negates the world y, this one does not. */
  lemma RectIsUnmirroredProjection(v: Vehicle, view: View)
    ensures RenderRect(v, view) == Rect(ToScrX(view, v.x), ToScrY(view, -v.y), ToScrD(view, v.w), ToScrD(view, v.h))
  {
    ProjectCongr(view.sy, v.y - view.y0, - -v.y - view.y0, view.scale);
  }

  /** Without the inversion, a vehicle further up in the world is drawn
      further down the screen: rows grow with world y. */
  lemma RectRowGrowsWithY(v: Vehicle, u: Vehicle, view: View)
    requires 0.0 <= view.scale && v.y <= u.y
    ensures RenderRect(v, view).y <= RenderRect(u, view).y
  {
    ProjectMonotone(view.sy, v.y - view.y0, u.y - view.y0, view.scale);
  }

  /** A vehicle whose corner is the corner of the world window is drawn from the screen corner. */
  lemma RectAnchor(v: Vehicle, view: View)
    requires v.x == view.x0 && v.y == view.y0
    ensures RenderRect(v, view).x == view.sx && RenderRect(v, view).y == view.sy
  {
    ProjectCongr(view.sx, v.x - view.x0, 0.0, view.scale);
    ProjectCongr(view.sy, v.y - view.y0, 0.0, view.scale);
  }

  /** A vehicle whose corner lies in the world window is drawn from a pixel on screen. */
  lemma RectCornerOnScreen(v: Vehicle, view: View)
    requires Placed(view) && Fitted(view)
    requires view.x0 <= v.x <= view.x0 + view.w && view.y0 <= v.y <= view.y0 + view.h
    ensures 0 <= RenderRect(v, view).x <= view.scrW && 0 <= RenderRect(v, view).y <= view.scrH
  {
    ColumnOnScreen(v, view);
    RowOnScreen(v, view);
  }

  lemma ColumnOnScreen(v: Vehicle, view: View)
    requires Placed(view) && Fitted(view) && view.x0 <= v.x <= view.x0 + view.w
    ensures 0 <= Project(view.sx, v.x - view.x0, view.scale) <= view.scrW
  {
    AxisFits(HalfTowardZero(view.scrW), view.scrW, view.w, view.scale, v.x - view.x0);
  }

  lemma RowOnScreen(v: Vehicle, view: View)
    requires Placed(view) && Fitted(view) && view.y0 <= v.y <= view.y0 + view.h
    ensures 0 <= Project(view.sy, v.y - view.y0, view.scale) <= view.scrH
  {
    AxisFits(HalfTowardZero(view.scrH), view.scrH, view.h, view.scale, v.y - view.y0);
  }

  class Model {
    var state: ModelState
    var vehicles: seq<Vehicle>
    var views: seq<View>

    constructor()
      ensures state == Idle && vehicles == [] && views == []
    {
      state := Idle;
      vehicles := [];
      views := [];
    }

    method AddVehicle(v: Vehicle)
      modifies this
      ensures vehicles == old(vehicles) + [v] && views == old(views) && state == old(state)
    {
      vehicles := vehicles + [v];
    }

    method AddView(v: View)
      modifies this
      ensures views == old(views) + [v] && vehicles == old(vehicles) && state == old(state)
    {
      views := views + [v];
    }

    method Start()
      modifies this
      ensures state == Started && vehicles == old(vehicles) && views == old(views)
    {
      state := Started;
    }

    method Stop()
      modifies this
      ensures state == Idle && vehicles == old(vehicles) && views == old(views)
    {
      state := Idle;
    }

    /** `Model::render`: with no view nothing is drawn; otherwise only the
        first view draws, its outline first, then each vehicle's rectangle
        in its own colour. */
    method Render() returns (calls: seq<Call>)
      ensures |views| == 0 ==> calls == []
      ensures |views| > 0 ==> |calls| == |vehicles| + 1 && calls[0] == DrawBorder(BorderRect(views[0]))
      ensures |views| > 0 ==> forall i :: 0 <= i < |vehicles| ==>
        calls[i + 1] == DrawBox(RenderRect(vehicles[i], views[0]), vehicles[i].color)
    {
      calls := [];
      if |views| > 0 {
        var view := views[0];
        calls := [DrawBorder(BorderRect(view))];
        var i := 0;
        while i < |vehicles|
          invariant 0 <= i <= |vehicles|
          invariant |calls| == i + 1 && calls[0] == DrawBorder(BorderRect(view))
          invariant forall j :: 0 <= j < i ==> calls[j + 1] == DrawBox(RenderRect(vehicles[j], view), vehicles[j].color)
        {
          calls := calls + [DrawBox(RenderRect(vehicles[i], view), vehicles[i].color)];
          i := i + 1;
        }
      }
    }

    /** `Model::display`: with no view nothing is shown; otherwise the first
        view shows itself, then each vehicle in order prints its rectangle
        as seen from that view, the view again, and its own fields. */
    method Display() returns (calls: seq<Call>)
      ensures |views| == 0 ==> calls == []
      ensures |views| > 0 ==> |calls| == 3 * |vehicles| + 1 && calls[0] == ShowView(views[0].id)
      ensures |views| > 0 ==> forall i :: 0 <= i < |vehicles| ==>
        && calls[3 * i + 1] == ShowRect(RenderRect(vehicles[i], views[0]))
        && calls[3 * i + 2] == ShowView(views[0].id)
        && calls[3 * i + 3] == ShowVehicle(i, views[0].id)
    {
      calls := [];
      if |views| > 0 {
        var view := views[0];
        calls := [ShowView(view.id)];
        var i := 0;
        while i < |vehicles|
          invariant 0 <= i <= |vehicles|
          invariant |calls| == 3 * i + 1 && calls[0] == ShowView(view.id)
          invariant forall j :: 0 <= j < i ==>
            && calls[3 * j + 1] == ShowRect(RenderRect(vehicles[j], view))
            && calls[3 * j + 2] == ShowView(view.id)
            && calls[3 * j + 3] == ShowVehicle(j, view.id)
        {
          calls := calls + [ShowRect(RenderRect(vehicles[i], view)), ShowView(view.id), ShowVehicle(i, view.id)];
          i := i + 1;
        }
      }
    }
  }

  /** The Vehicle constructor, which takes as id the number of vehicles the
      model holds, followed right away by `addVehicle`: the id is then the
      vehicle's index. */
  method Spawn(m: Model, x: real, y: real, w: real, h: real, color: Color) returns (v: Vehicle)
    modifies m
    ensures v.id == |old(m.vehicles)| && m.vehicles == old(m.vehicles) + [v] && m.vehicles[v.id] == v
    ensures v == Vehicle(v.id, x, y, w, h, color)
    ensures m.views == old(m.views) && m.state == old(m.state)
  {
    v := Vehicle(|m.vehicles|, x, y, w, h, color);
    m.AddVehicle(v);
  }
}
