/** The View of both headers: a world window (centre, extent in metres)
    fitted into a screen rectangle (pixels) with one uniform scale, and the
    world-to-screen projections that vehicles use when they draw themselves
    (`Vehicle::to_scr_x`, `to_scr_y`, `to_scr_d` in src/data.hpp). */
module Viewport {
  import opened Cpp

  /** A constructed View: the arguments of its constructor and the values it derives. */
  datatype View = View(
    id: int,
    x: real, y: real,        // centre of the world window, metres
    w: real, h: real,        // extent of the world window, metres
    scrW: int, scrH: int,    // screen extent, pixels
    x0: real, y0: real,      // world corner the window starts at
    sx: int, sy: int,        // screen corner the window starts at
    scale: real)             // pixels per metre

  /** A rectangle on screen, in pixels: an `SDL_Rect`. */
  datatype Rect = Rect(x: int, y: int, w: int, h: int)

  /** The colour a vehicle is drawn in: four `uint8_t` channels handed to `SDL_SetRenderDrawColor`. */
  datatype Color = Color(red: byte, green: byte, blue: byte, alpha: byte)

  /** The constructor's scale is a finite number: at most one extent is zero.
      A zero width needs a positive screen width, so that `scr_w/w` is `+inf`
      and the height's ratio is below it. A zero height needs a screen height
      that is not negative: `scr_h/h` is then `+inf` or NaN, and neither
      compares below the width's ratio. */
  predicate FiniteScale(w: real, h: real, scrW: int, scrH: int) {
    && (w != 0.0 || h != 0.0)
    && (w == 0.0 ==> scrW > 0)
    && (h == 0.0 ==> scrH >= 0)
  }

  /** The smaller of the two per-axis ratios, so that the whole world window
      fits on screen; a ratio over a zero extent, infinite or NaN, is never the smaller. */
  function Scale(w: real, h: real, scrW: int, scrH: int): (s: real)
    requires FiniteScale(w, h, scrW, scrH)
    ensures w != 0.0 ==> s <= scrW as real / w
    ensures h != 0.0 ==> s <= scrH as real / h
    ensures (w != 0.0 && s == scrW as real / w) || (h != 0.0 && s == scrH as real / h)
  {
    if w == 0.0 then scrH as real / h
    else if h == 0.0 then scrW as real / w
    else
      var s := scrW as real / w;
      if scrH as real / h < s then scrH as real / h else s
  }

  /** The View constructor; `registered` is the number of views the model holds at that moment. */
  function NewView(x: real, y: real, w: real, h: real, scrW: int, scrH: int, registered: int): (v: View)
    requires FiniteScale(w, h, scrW, scrH)
    ensures v.id == registered && v.x == x && v.y == y && v.w == w && v.h == h
    ensures v.scrW == scrW && v.scrH == scrH
    ensures v.x0 + w / 2.0 == x && v.y0 + h / 2.0 == y
    ensures Constructed(v)
  {
    var scale := Scale(w, h, scrW, scrH);
    View(registered, x, y, w, h, scrW, scrH, x - w / 2.0, y - h / 2.0,
         Corner(HalfTowardZero(scrW), w, scale), Corner(HalfTowardZero(scrH), h, scale), scale)
  }

  /** The screen corner of one axis: half the screen, less half the scaled
      world extent, truncated to a pixel. */
  function Corner(half: int, ext: real, scale: real): int {
    Trunc(half as real - ext / 2.0 * scale)
  }

  /** The pixel that lies `offset` metres past the window edge whose pixel is `corner`. */
  function Project(corner: int, offset: real, scale: real): int {
    corner + Trunc(offset * scale)
  }

  /** The corners the constructor derives from the centre, the extents and the scale. */
  ghost predicate Placed(v: View) {
    && v.x0 == v.x - v.w / 2.0 && v.y0 == v.y - v.h / 2.0
    && v.sx == Corner(HalfTowardZero(v.scrW), v.w, v.scale)
    && v.sy == Corner(HalfTowardZero(v.scrH), v.h, v.scale)
  }

  /** `v` holds exactly what the constructor derives from its own arguments. */
  ghost predicate Constructed(v: View) {
    FiniteScale(v.w, v.h, v.scrW, v.scrH) && v.scale == Scale(v.w, v.h, v.scrW, v.scrH) && Placed(v)
  }

  /** A world window of non-negative extent whose scaled extents fit the screen on both axes. */
  ghost predicate Fitted(v: View) {
    && 0.0 <= v.w && 0.0 <= v.h && 0.0 <= v.scale && 0 <= v.scrW && 0 <= v.scrH
    && 0.0 <= v.w * v.scale <= v.scrW as real
    && 0.0 <= v.h * v.scale <= v.scrH as real
  }

  function ToScrX(v: View, wx: real): int {
    Project(v.sx, wx - v.x0, v.scale)
  }

  /** The projection as written: the world y is negated before the offset is taken. */
  function ToScrY(v: View, wy: real): int {
    Project(v.sy, -wy - v.y0, v.scale)
  }

  function ToScrD(v: View, d: real): int {
    Project(0, d, v.scale)
  }

  /** The screen rectangle `View::render` outlines. */
  function BorderRect(v: View): Rect {
    Rect(v.sx, v.sy, ToScrD(v, v.w), ToScrD(v, v.h))
  }

  /** The y projection the View evidently intends: the top of the world
      window (`y0 + h`, since world y grows upward) lands on `sy`. */
  function ToScrYUpright(v: View, wy: real): int {
    Project(v.sy, v.y0 + v.h - wy, v.scale)
  }

  // ---------------------------------------------------------------------
  // Arithmetic on one axis, over plain numbers

  lemma MulLe(a: real, b: real, s: real)
    requires a <= b && 0.0 <= s
    ensures a * s <= b * s
  {
    assert (b - a) * s >= 0.0;
  }

  lemma ProjectCongr(c: int, a: real, b: real, s: real)
    requires a == b
    ensures Project(c, a, s) == Project(c, b, s)
  {
  }

  lemma ProjectShift(c: int, d: real, s: real)
    ensures Project(c, d, s) == c + Project(0, d, s)
  {
  }

  lemma ProjectMonotone(c: int, a: real, b: real, s: real)
    requires a <= b && 0.0 <= s
    ensures Project(c, a, s) <= Project(c, b, s)
  {
    MulLe(a, b, s);
    TruncMonotone(a * s, b * s);
  }

  lemma ProjectOdd(d: real, s: real)
    ensures Project(0, -d, s) == -Project(0, d, s)
  {
    assert -d * s == -(d * s);
    TruncOdd(d * s);
  }

  /** The pixel offset from the corner is the scaled offset with its fraction dropped toward zero. */
  lemma ProjectTruncates(c: int, d: real, s: real)
    ensures var e := d * s; var k := Project(c, d, s) - c;
      && (0.0 <= e ==> 0 <= k && k as real <= e < k as real + 1.0)
      && (e < 0.0 ==> k <= 0 && k as real - 1.0 < e <= k as real)
  {
  }

  /** With `s <= scr / ext` and `ext > 0`, the scaled extent fits in `scr`. */
  lemma ScaledExtentFits(ext: real, s: real, scr: int)
    requires ext > 0.0 && 0 <= scr && 0.0 <= s <= scr as real / ext
    ensures 0.0 <= ext * s <= scr as real
  {
    MulLe(s, scr as real / ext, ext);
    assert scr as real / ext * ext == scr as real;
  }

  /** The corner pixel plus the truncated half window lands within one and a half pixels of the screen's middle. */
  lemma AxisCentre(half: int, scr: int, ext: real, s: real)
    requires -1 <= scr - 2 * half <= 1
    ensures -3 <= 2 * Project(Corner(half, ext, s), ext / 2.0, s) - scr <= 3
  {
    var a := ext / 2.0 * s;
    assert ext / 2.0 * s == a;
    TruncNear(half as real - a);
    TruncNear(a);
    var sum := Trunc(half as real - a) + Trunc(a);
    assert half as real - 2.0 < sum as real < half as real + 2.0;
    assert half - 1 <= sum <= half + 1;
  }

  /** The corner pixel plus any truncated offset `t * s` with `t` inside the extent stays in `[0, scr]`. */
  lemma AxisFits(half: int, scr: int, ext: real, s: real, t: real)
    requires 0 <= scr && half == HalfTowardZero(scr)
    requires 0.0 <= s && 0.0 <= ext * s <= scr as real && 0.0 <= t <= ext
    ensures 0 <= Project(Corner(half, ext, s), t, s) <= scr
  {
    var m := ext * s;
    var d := t * s;
    MulLe(0.0, t, s);
    MulLe(t, ext, s);
    assert 0.0 <= d <= m;
    assert ext / 2.0 * s == m / 2.0;
    var corner := half as real - m / 2.0;
    assert corner >= -0.5;
    TruncNear(corner);
    assert 0 <= Trunc(corner);
    assert Trunc(d) as real <= d;
    if corner >= 0.0 {
      assert (Trunc(corner) + Trunc(d)) as real <= half as real + m / 2.0;
    } else {
      assert Trunc(corner) == 0;
    }
  }

  /** The outline of one axis: from the corner pixel over the scaled extent, within `[0, scr]`. */
  lemma AxisBorder(half: int, scr: int, ext: real, s: real)
    requires 0 <= scr && half == HalfTowardZero(scr)
    requires 0.0 <= s && 0.0 <= ext * s <= scr as real && 0.0 <= ext
    ensures 0 <= Corner(half, ext, s) && Corner(half, ext, s) + Project(0, ext, s) <= scr
  {
    var c := Corner(half, ext, s);
    AxisFits(half, scr, ext, s, 0.0);
    AxisFits(half, scr, ext, s, ext);
    ProjectCongr(c, 0.0 * s, 0.0, 1.0);
    ProjectShift(c, ext, s);
  }

  /** The margins left and right of the scaled extent differ by at most three pixels. */
  lemma AxisMargins(half: int, scr: int, ext: real, s: real)
    requires -1 <= scr - 2 * half <= 1
    ensures -3 <= 2 * Corner(half, ext, s) + Project(0, ext, s) - scr <= 3
  {
    var m := ext * s;
    assert ext / 2.0 * s == m / 2.0;
    TruncNear(half as real - m / 2.0);
    TruncNear(m);
    var c := Corner(half, ext, s);
    var d := Project(0, ext, s);
    assert d == Trunc(m);
    assert 2.0 * half as real - 3.0 < (2 * c + d) as real < 2.0 * half as real + 3.0;
  }

  // ---------------------------------------------------------------------
  // Properties of the View constructor and the projections

  /** For a world window of non-negative extent, the constructor's scale
      fits both scaled extents on a screen of non-negative extent. */
  lemma ScaleFits(w: real, h: real, scrW: int, scrH: int)
    requires 0.0 <= w && 0.0 <= h && 0 <= scrW && 0 <= scrH && FiniteScale(w, h, scrW, scrH)
    ensures 0.0 <= Scale(w, h, scrW, scrH)
    ensures 0.0 <= w * Scale(w, h, scrW, scrH) <= scrW as real
    ensures 0.0 <= h * Scale(w, h, scrW, scrH) <= scrH as real
  {
    var s := Scale(w, h, scrW, scrH);
    assert w != 0.0 ==> 0.0 <= scrW as real / w;
    assert h != 0.0 ==> 0.0 <= scrH as real / h;
    assert 0.0 <= s;
    if w != 0.0 {
      ScaledExtentFits(w, s, scrW);
    }
    if h != 0.0 {
      ScaledExtentFits(h, s, scrH);
    }
  }

  /** Every View built over a world window of non-negative extent fits its screen. */
  lemma NewViewFits(x: real, y: real, w: real, h: real, scrW: int, scrH: int, registered: int)
    requires 0.0 <= w && 0.0 <= h && 0 <= scrW && 0 <= scrH && FiniteScale(w, h, scrW, scrH)
    ensures Fitted(NewView(x, y, w, h, scrW, scrH, registered))
  {
    ScaleFits(w, h, scrW, scrH);
  }

  /** A window of zero width, which the constructor accepts when its height
      is not zero: the scale comes from the height, and the window shrinks
      to the middle column of the screen. */
  lemma ZeroWidthView(x: real, y: real, h: real, scrW: int, scrH: int)
    requires h != 0.0 && 0 < scrW
    ensures var v := NewView(x, y, 0.0, h, scrW, scrH, 0);
      v.scale == scrH as real / h && v.sx == HalfTowardZero(scrW) && ToScrD(v, v.w) == 0
  {
    var v := NewView(x, y, 0.0, h, scrW, scrH, 0);
    assert 0.0 / 2.0 * v.scale == 0.0;
    assert v.w * v.scale == 0.0;
  }

  /** A window of zero height over a screen of any height that is not
      negative, even zero: the scale comes from the width, and the window
      shrinks to the middle row of the screen. */
  lemma ZeroHeightView(x: real, y: real, w: real, scrW: int, scrH: int)
    requires w != 0.0 && 0 <= scrH
    ensures var v := NewView(x, y, w, 0.0, scrW, scrH, 0);
      v.scale == scrW as real / w && v.sy == HalfTowardZero(scrH) && ToScrD(v, v.h) == 0
  {
    var v := NewView(x, y, w, 0.0, scrW, scrH, 0);
    assert 0.0 / 2.0 * v.scale == 0.0;
    assert v.h * v.scale == 0.0;
  }

  /** The corner of the world window lands on the screen corner, and a zero length on zero pixels. */
  lemma ProjectionAnchors(v: View)
    ensures ToScrX(v, v.x0) == v.sx
    ensures ToScrY(v, -v.y0) == v.sy
    ensures ToScrD(v, 0.0) == 0
  {
    ProjectCongr(v.sx, v.x0 - v.x0, 0.0, v.scale);
    ProjectCongr(v.sy, - -v.y0 - v.y0, 0.0, v.scale);
  }

  /** Screen x grows with world x. */
  lemma ToScrXMonotone(v: View, a: real, b: real)
    requires 0.0 <= v.scale && a <= b
    ensures ToScrX(v, a) <= ToScrX(v, b)
  {
    ProjectMonotone(v.sx, a - v.x0, b - v.x0, v.scale);
  }

  /** Screen y shrinks as world y grows: the y axis is inverted. */
  lemma ToScrYAntitone(v: View, a: real, b: real)
    requires 0.0 <= v.scale && a <= b
    ensures ToScrY(v, b) <= ToScrY(v, a)
  {
    ProjectMonotone(v.sy, -b - v.y0, -a - v.y0, v.scale);
  }

  /** A length and its opposite project to opposite pixel counts. */
  lemma ToScrDOdd(v: View, d: real)
    ensures ToScrD(v, -d) == -ToScrD(v, d)
  {
    ProjectOdd(d, v.scale);
  }

  /** `to_scr_x`: the column is the corner column plus the world offset from
      the window's left edge, scaled, with its fraction dropped toward zero. */
  lemma ToScrXTruncates(v: View, wx: real)
    ensures var e := (wx - v.x0) * v.scale; var k := ToScrX(v, wx) - v.sx;
      && (0.0 <= e ==> 0 <= k && k as real <= e < k as real + 1.0)
      && (e < 0.0 ==> k <= 0 && k as real - 1.0 < e <= k as real)
  {
    ProjectTruncates(v.sx, wx - v.x0, v.scale);
  }

  /** `to_scr_y`: the row is the corner row plus the offset of the negated
      world y from the window's edge `y0`, scaled, with its fraction dropped toward zero. */
  lemma ToScrYTruncates(v: View, wy: real)
    ensures var e := (-wy - v.y0) * v.scale; var k := ToScrY(v, wy) - v.sy;
      && (0.0 <= e ==> 0 <= k && k as real <= e < k as real + 1.0)
      && (e < 0.0 ==> k <= 0 && k as real - 1.0 < e <= k as real)
  {
    ProjectTruncates(v.sy, -wy - v.y0, v.scale);
  }

  /** `to_scr_d`: a length in pixels is the scaled length with its fraction dropped toward zero. */
  lemma ToScrDTruncates(v: View, d: real)
    ensures var e := d * v.scale; var k := ToScrD(v, d);
      && (0.0 <= e ==> 0 <= k && k as real <= e < k as real + 1.0)
      && (e < 0.0 ==> k <= 0 && k as real - 1.0 < e <= k as real)
  {
    ProjectTruncates(0, d, v.scale);
  }

  /** The outline `View::render` draws runs exactly between the projections
      of the world window's edges: columns `to_scr_x(x0)` to
      `to_scr_x(x0 + w)`, rows `to_scr_y(-y0)` to `to_scr_y(-(y0 + h))`. */
  lemma BorderIsProjectedWindow(v: View)
    ensures var r := BorderRect(v);
      && r.x == ToScrX(v, v.x0) && r.x + r.w == ToScrX(v, v.x0 + v.w)
      && r.y == ToScrY(v, -v.y0) && r.y + r.h == ToScrY(v, -(v.y0 + v.h))
  {
    ProjectionAnchors(v);
    ProjectCongr(v.sx, v.x0 + v.w - v.x0, v.w, v.scale);
    ProjectShift(v.sx, v.w, v.scale);
    ProjectCongr(v.sy, -(-(v.y0 + v.h)) - v.y0, v.h, v.scale);
    ProjectShift(v.sy, v.h, v.scale);
  }

  /** The constructor centres the scaled window: on each axis the margin
      before the outline and the margin after it differ by at most three
      pixels, which the truncations account for. */
  lemma MarginsBalanced(v: View)
    requires Placed(v)
    ensures -3 <= v.sx - (v.scrW - (v.sx + ToScrD(v, v.w))) <= 3
    ensures -3 <= v.sy - (v.scrH - (v.sy + ToScrD(v, v.h))) <= 3
  {
    AxisMargins(HalfTowardZero(v.scrW), v.scrW, v.w, v.scale);
    AxisMargins(HalfTowardZero(v.scrH), v.scrH, v.h, v.scale);
  }

  /** Horizontally, the centre of the world window lands on the centre of
      the screen, up to the truncations (at most 1.5 pixels off). */
  lemma CentreX(v: View)
    requires Placed(v)
    ensures -3 <= 2 * ToScrX(v, v.x) - v.scrW <= 3
  {
    ProjectCongr(v.sx, v.x - v.x0, v.w / 2.0, v.scale);
    AxisCentre(HalfTowardZero(v.scrW), v.scrW, v.w, v.scale);
  }

  /** Every world x inside the window projects to a pixel column on screen. */
  lemma WindowFitsX(v: View, wx: real)
    requires Placed(v) && Fitted(v) && v.x0 <= wx <= v.x0 + v.w
    ensures 0 <= ToScrX(v, wx) <= v.scrW
  {
    AxisFits(HalfTowardZero(v.scrW), v.scrW, v.w, v.scale, wx - v.x0);
  }

  /** The outline `View::render` draws lies on the screen. */
  lemma BorderFits(v: View)
    requires Placed(v) && Fitted(v)
    ensures var r := BorderRect(v);
      0 <= r.x && r.x + r.w <= v.scrW && 0 <= r.y && r.y + r.h <= v.scrH
  {
    BorderFitsX(v);
    BorderFitsY(v);
  }

  lemma BorderFitsX(v: View)
    requires Placed(v) && Fitted(v)
    ensures 0 <= v.sx && v.sx + ToScrD(v, v.w) <= v.scrW
  {
    AxisBorder(HalfTowardZero(v.scrW), v.scrW, v.w, v.scale);
  }

  lemma BorderFitsY(v: View)
    requires Placed(v) && Fitted(v)
    ensures 0 <= v.sy && v.sy + ToScrD(v, v.h) <= v.scrH
  {
    AxisBorder(HalfTowardZero(v.scrH), v.scrH, v.h, v.scale);
  }

  /** The y projection as written fits the window mirrored about y = 0 on screen. */
  lemma MirroredWindowFitsY(v: View, wy: real)
    requires Placed(v) && Fitted(v) && v.y0 <= -wy <= v.y0 + v.h
    ensures 0 <= ToScrY(v, wy) <= v.scrH
  {
    AxisFits(HalfTowardZero(v.scrH), v.scrH, v.h, v.scale, -wy - v.y0);
  }

  /** The view of the demo program: 30 x 40 metres on 800 x 600 pixels gives 15 pixels per metre. */
  lemma DemoViewScale()
    ensures var v := NewView(0.0, 0.0, 30.0, 40.0, 800, 600, 0);
      v.scale == 15.0 && ToScrD(v, 1.0) == 15 && v.sx == 175 && v.sy == 0
  {
    assert Scale(30.0, 40.0, 800, 600) == 15.0;
    assert Corner(400, 30.0, 15.0) == 175;
    assert Corner(300, 40.0, 15.0) == 0;
    assert Project(0, 1.0, 15.0) == 15;
  }

  /** As written, a View centred off the x axis misplaces its own window:
      for a 30 x 40 window centred at (0, 10) on 800 x 600 pixels the world
      centre lands on the top edge (row 0, not near 300) and the window's
      top edge 300 pixels above the screen. */
  lemma OffCentreViewCounterexample()
    ensures var v := NewView(0.0, 10.0, 30.0, 40.0, 800, 600, 0);
      Fitted(v) && ToScrY(v, v.y) == 0 && ToScrY(v, v.y0 + v.h) == -300
  {
    var v := NewView(0.0, 10.0, 30.0, 40.0, 800, 600, 0);
    assert v.scale == 15.0 && v.y0 == -10.0 && v.sy == 0;
    assert (-v.y - v.y0) * v.scale == 0.0;
    assert (-(v.y0 + v.h) - v.y0) * v.scale == -300.0;
  }

  /** Corrected projection: the world centre lands on the screen centre, up to truncation. */
  lemma UprightCentre(v: View)
    requires Placed(v)
    ensures -3 <= 2 * ToScrYUpright(v, v.y) - v.scrH <= 3
  {
    ProjectCongr(v.sy, v.y0 + v.h - v.y, v.h / 2.0, v.scale);
    AxisCentre(HalfTowardZero(v.scrH), v.scrH, v.h, v.scale);
  }

  /** Corrected projection: every world y inside the window projects to a row on screen. */
  lemma UprightFits(v: View, wy: real)
    requires Placed(v) && Fitted(v) && v.y0 <= wy <= v.y0 + v.h
    ensures 0 <= ToScrYUpright(v, wy) <= v.scrH
  {
    AxisFits(HalfTowardZero(v.scrH), v.scrH, v.h, v.scale, v.y0 + v.h - wy);
  }

  /** Corrected projection: still inverted, screen y shrinks as world y grows. */
  lemma UprightAntitone(v: View, a: real, b: real)
    requires 0.0 <= v.scale && a <= b
    ensures ToScrYUpright(v, b) <= ToScrYUpright(v, a)
  {
    ProjectMonotone(v.sy, v.y0 + v.h - b, v.y0 + v.h - a, v.scale);
  }

  /** The two agree exactly for a View centred on y = 0, which is the only View the demo builds. */
  lemma UprightAgreesWhenCentredAtZero(v: View, wy: real)
    requires Placed(v) && v.y == 0.0
    ensures ToScrY(v, wy) == ToScrYUpright(v, wy)
  {
    ProjectCongr(v.sy, -wy - v.y0, v.y0 + v.h - wy, v.scale);
  }
}
