/** Element geometry for the render-optimisation pipeline: the drawable
    element record, its axis-aligned bounds (with the infinite sentinels the
    bounds computation starts from), its centre, its distance to the viewport
    centre, and the viewport-overlap test used for culling. */
module CanvasGeometry {
  import opened Common

  /** An element's `type` tag. The tags the pipeline tells apart are
      constructors; `Tagged` carries any other tag. Kinds are built from tags
      by `KindOf`, so `Tagged` never holds one of the named tags and each tag
      has one representation. */
  datatype Kind = Line | Path | Circle | Rect | Ellipse | Image | Text | Tagged(tag: string)

  const NamedTags: set<string> := {"line", "path", "circle", "rect", "ellipse", "image", "text"}

  /** The kind of a `type` tag. */
  function KindOf(tag: string): (k: Kind)
    ensures k.Tagged? <==> tag !in NamedTags
    ensures k.Tagged? ==> k.tag == tag
  {
    if tag == "line" then Line
    else if tag == "path" then Path
    else if tag == "circle" then Circle
    else if tag == "rect" then Rect
    else if tag == "ellipse" then Ellipse
    else if tag == "image" then Image
    else if tag == "text" then Text
    else Tagged(tag)
  }

  /** The `type` tag of a kind. */
  function TagOf(k: Kind): string
  {
    match k
    case Line => "line"
    case Path => "path"
    case Circle => "circle"
    case Rect => "rect"
    case Ellipse => "ellipse"
    case Image => "image"
    case Text => "text"
    case Tagged(t) => t
  }

  /** Reading a tag and writing it back gives the tag. */
  lemma TagRoundTrip(tag: string)
    ensures TagOf(KindOf(tag)) == tag
  {
  }

  /** A drawable element. Every geometry field is optional, as on the canvas
      objects, and `kind` is the element's `type` tag. `points` is the flat
      coordinate list `[x0, y0, x1, y1, ...]` of lines and paths. */
  datatype Element = Element(
    kind: Kind,
    x: Option<real>,
    y: Option<real>,
    width: Option<real>,
    height: Option<real>,
    radius: Option<real>,
    radiusX: Option<real>,
    radiusY: Option<real>,
    points: Option<seq<real>>,
    data: Option<string>,
    cornerRadius: Option<real>,
    shadowBlur: Option<real>,
    segments: Option<int>)

  /** Coordinate lists come in pairs; an odd-length list is not a stroke. */
  predicate WellFormed(e: Element)
  {
    e.points.Some? ==> |e.points.value| % 2 == 0
  }

  /** The `k`-th coordinate pair of a flat coordinate list. */
  function PointX(pts: seq<real>, k: nat): real
    requires 2 * k + 1 < |pts|
  {
    pts[2 * k]
  }

  function PointY(pts: seq<real>, k: nat): real
    requires 2 * k + 1 < |pts|
  {
    pts[2 * k + 1]
  }

  datatype Viewport = Viewport(x: real, y: real, width: real, height: real, scale: real)

  /** The culling options. `frustumPadding` and `enableOcclusion` are
      configuration the pipeline never reads. */
  datatype CullingConfig = CullingConfig(
    enabled: bool,
    margin: real,
    frustumPadding: real,
    enableOcclusion: bool,
    enableDistanceCulling: bool,
    maxCullingDistance: real)

  const DefaultCulling := CullingConfig(true, 100.0, 50.0, false, true, 2000.0)
  const DefaultViewport := Viewport(0.0, 0.0, 800.0, 600.0, 1.0)

  // ------------------------------------------------------- extended reals

  /** A bound coordinate: a real or one of the two infinities the bounds
      computation starts from. */
  datatype Ext = NegInf | Fin(v: real) | PosInf

  /** `Math.min(a, b)` for a finite `b`. */
  function ExtMin(a: Ext, b: real): Ext
  {
    match a
    case NegInf => NegInf
    case Fin(u) => Fin(Min(u, b))
    case PosInf => Fin(b)
  }

  /** `Math.max(a, b)` for a finite `b`. */
  function ExtMax(a: Ext, b: real): Ext
  {
    match a
    case NegInf => Fin(b)
    case Fin(u) => Fin(Max(u, b))
    case PosInf => PosInf
  }

  /** `a < b` and `a > b` for a finite `b`. */
  predicate ExtLt(a: Ext, b: real) { a.NegInf? || (a.Fin? && a.v < b) }
  predicate ExtGt(a: Ext, b: real) { a.PosInf? || (a.Fin? && a.v > b) }

  /** `hi - lo` where `hi` is never +Infinity and `lo` never -Infinity, so
      that the difference is either finite or -Infinity. */
  function Span(hi: Ext, lo: Ext): (r: Ext)
    requires !hi.PosInf? && !lo.NegInf?
    ensures r.Fin? <==> hi.Fin? && lo.Fin?
    ensures r.Fin? ==> r.v == hi.v - lo.v
    ensures !r.Fin? ==> r.NegInf?
  {
    if hi.Fin? && lo.Fin? then Fin(hi.v - lo.v) else NegInf
  }

  // ----------------------------------------------------------------- bounds

  /** The running extremes while the bounds are computed. */
  datatype Box = Box(minX: Ext, minY: Ext, maxX: Ext, maxY: Ext)

  /** The minima start at +Infinity and only ever shrink, the maxima start at
      -Infinity and only ever grow. */
  predicate Oriented(b: Box)
  {
    !b.minX.NegInf? && !b.minY.NegInf? && !b.maxX.PosInf? && !b.maxY.PosInf?
  }

  /** The extremes the anchor and size fields give, before any points. */
  function AnchorBox(e: Element): (b: Box)
    ensures Oriented(b)
    ensures e.x.None? || e.y.None? <==> b.minX.PosInf?
  {
    if e.x.Some? && e.y.Some? then
      var x, y := e.x.value, e.y.value;
      if e.width.Some? && e.height.Some? then
        Box(Fin(x), Fin(y), Fin(x + e.width.value), Fin(y + e.height.value))
      else if e.radius.Some? then
        var r := e.radius.value;
        Box(Fin(x - r), Fin(y - r), Fin(x + r), Fin(y + r))
      else if e.radiusX.Some? && e.radiusY.Some? then
        var rx, ry := e.radiusX.value, e.radiusY.value;
        Box(Fin(x - rx), Fin(y - ry), Fin(x + rx), Fin(y + ry))
      else
        Box(Fin(x), Fin(y), NegInf, NegInf)
    else
      Box(PosInf, PosInf, NegInf, NegInf)
  }

  /** One coordinate pair folded into the extremes. */
  function Include(b: Box, px: real, py: real): (r: Box)
    requires Oriented(b)
    ensures Oriented(r)
    ensures r.minX.Fin? && r.minY.Fin? && r.maxX.Fin? && r.maxY.Fin?
  {
    Box(ExtMin(b.minX, px), ExtMin(b.minY, py), ExtMax(b.maxX, px), ExtMax(b.maxY, py))
  }

  /** The extremes after the coordinate pairs of `pts`, taken in order. */
  function FoldPoints(b: Box, pts: seq<real>): (r: Box)
    requires Oriented(b) && |pts| % 2 == 0
    ensures Oriented(r)
    decreases |pts|
  {
    if pts == [] then b
    else Include(FoldPoints(b, pts[..|pts| - 2]), pts[|pts| - 2], pts[|pts| - 1])
  }

  /** The axis-aligned bounds of an element, with its width and height. */
  datatype Bounds = Bounds(left: Ext, top: Ext, right: Ext, bottom: Ext, width: Ext, height: Ext)

  function BoxBounds(b: Box): Bounds
    requires Oriented(b)
  {
    Bounds(b.minX, b.minY, b.maxX, b.maxY, Span(b.maxX, b.minX), Span(b.maxY, b.minY))
  }

  predicate HasStroke(e: Element)
  {
    e.points.Some? && |e.points.value| >= 2
  }

  /** The bounds of an element: its anchor extent widened by every point of
      its coordinate list. */
  function ElementBounds(e: Element): Bounds
    requires WellFormed(e)
  {
    var a := AnchorBox(e);
    BoxBounds(if HasStroke(e) then FoldPoints(a, e.points.value) else a)
  }

  /** The bounds computation as a loop over the coordinate pairs. */
  method GetElementBounds(e: Element) returns (b: Bounds)
    requires WellFormed(e)
    ensures b == ElementBounds(e)
  {
    var box := AnchorBox(e);
    if HasStroke(e) {
      var pts := e.points.value;
      var i := 0;
      while i < |pts|
        invariant 0 <= i <= |pts| && i % 2 == 0
        invariant box == FoldPoints(AnchorBox(e), pts[..i])
      {
        assert pts[..i + 2][..i] == pts[..i];
        box := Include(box, pts[i], pts[i + 1]);
        i := i + 2;
      }
      assert pts[..i] == pts;
    }
    b := BoxBounds(box);
  }

  /** Every coordinate pair folded in lies within the resulting extremes. */
  lemma {:induction false} FoldEncloses(b: Box, pts: seq<real>, k: nat)
    requires Oriented(b) && |pts| % 2 == 0 && 2 * k + 1 < |pts|
    ensures var r := FoldPoints(b, pts);
      r.minX.Fin? && r.maxX.Fin? && r.minY.Fin? && r.maxY.Fin? &&
      r.minX.v <= PointX(pts, k) <= r.maxX.v && r.minY.v <= PointY(pts, k) <= r.maxY.v
    decreases |pts|
  {
    var n := |pts|;
    var front := pts[..n - 2];
    if 2 * k + 1 < n - 2 {
      FoldEncloses(b, front, k);
      assert PointX(front, k) == PointX(pts, k) && PointY(front, k) == PointY(pts, k);
    }
  }

  /** The minimum is attained: it is the anchor's own or one of the points. */
  lemma {:induction false} FoldAttainsMin(b: Box, pts: seq<real>)
    requires Oriented(b) && |pts| % 2 == 0
    ensures var r := FoldPoints(b, pts);
      r.minX == b.minX || exists k: nat :: 2 * k + 1 < |pts| && r.minX == Fin(PointX(pts, k))
    decreases |pts|
  {
    if pts != [] {
      var n := |pts|;
      var front := pts[..n - 2];
      FoldAttainsMin(b, front);
      var r0 := FoldPoints(b, front);
      var last: nat := (n - 2) / 2;
      assert PointX(pts, last) == pts[n - 2];
      if r0.minX.Fin? && r0.minX.v <= pts[n - 2] && r0.minX != b.minX {
        var k: nat :| 2 * k + 1 < |front| && r0.minX == Fin(PointX(front, k));
        assert PointX(front, k) == PointX(pts, k);
      }
    }
  }

  /** Bounds enclose every point of a stroke. */
  lemma BoundsEnclosePoints(e: Element, k: nat)
    requires WellFormed(e) && e.points.Some? && 2 * k + 1 < |e.points.value|
    ensures var b := ElementBounds(e); var pts := e.points.value;
      b.left.Fin? && b.right.Fin? && b.top.Fin? && b.bottom.Fin? &&
      b.left.v <= PointX(pts, k) <= b.right.v && b.top.v <= PointY(pts, k) <= b.bottom.v
  {
    FoldEncloses(AnchorBox(e), e.points.value, k);
  }

  /** The left bound of a stroke is its anchor or one of its points. */
  lemma LeftBoundAttained(e: Element)
    requires WellFormed(e) && HasStroke(e)
    ensures var b := ElementBounds(e); var pts := e.points.value;
      b.left == AnchorBox(e).minX || exists k: nat :: 2 * k + 1 < |pts| && b.left == Fin(PointX(pts, k))
  {
    FoldAttainsMin(AnchorBox(e), e.points.value);
  }

  // ----------------------------------------------------------------- centre

  datatype Point = Point(x: real, y: real)

  /** The centre the distance is measured from: the middle of the box for a
      sized element, the anchor for any other anchored element, the midpoint
      of the first and last points for a stroke, and the origin otherwise. */
  function Center(e: Element): (c: Point)
    requires WellFormed(e)
  {
    if e.x.Some? && e.y.Some? then
      if e.width.Some? && e.height.Some? then
        Point(e.x.value + e.width.value / 2.0, e.y.value + e.height.value / 2.0)
      else Point(e.x.value, e.y.value)
    else if HasStroke(e) then
      var pts := e.points.value;
      Point((pts[0] + pts[|pts| - 2]) / 2.0, (pts[1] + pts[|pts| - 1]) / 2.0)
    else Point(0.0, 0.0)
  }

  /** The centre of an unanchored stroke lies within its bounds. */
  lemma StrokeCenterWithinBounds(e: Element)
    requires WellFormed(e) && HasStroke(e) && (e.x.None? || e.y.None?)
    ensures var b := ElementBounds(e); var c := Center(e);
      b.left.Fin? && b.right.Fin? && b.top.Fin? && b.bottom.Fin? &&
      b.left.v <= c.x <= b.right.v && b.top.v <= c.y <= b.bottom.v
  {
    var pts := e.points.value;
    var last: nat := (|pts| - 2) / 2;
    BoundsEnclosePoints(e, 0);
    BoundsEnclosePoints(e, last);
    assert PointX(pts, last) == pts[|pts| - 2];
  }

  /** The centre of a sized element with a non-negative size lies within its bounds. */
  lemma BoxCenterWithinBounds(e: Element)
    requires WellFormed(e) && e.x.Some? && e.y.Some? && e.width.Some? && e.height.Some?
    requires e.width.value >= 0.0 && e.height.value >= 0.0
    ensures var b := ElementBounds(e); var c := Center(e);
      b.left.Fin? && b.right.Fin? && b.top.Fin? && b.bottom.Fin? &&
      b.left.v <= c.x <= b.right.v && b.top.v <= c.y <= b.bottom.v
  {
    if HasStroke(e) {
      var pts := e.points.value;
      FoldGrows(AnchorBox(e), pts);
    }
  }

  /** Folding points in never narrows the extremes. */
  lemma {:induction false} FoldGrows(b: Box, pts: seq<real>)
    requires Oriented(b) && |pts| % 2 == 0
    requires b.minX.Fin? && b.minY.Fin? && b.maxX.Fin? && b.maxY.Fin?
    ensures var r := FoldPoints(b, pts);
      r.minX.Fin? && r.minY.Fin? && r.maxX.Fin? && r.maxY.Fin? &&
      r.minX.v <= b.minX.v && r.minY.v <= b.minY.v && b.maxX.v <= r.maxX.v && b.maxY.v <= r.maxY.v
    decreases |pts|
  {
    if pts != [] {
      FoldGrows(b, pts[..|pts| - 2]);
    }
  }

  /** The squared distance from the element's centre to the viewport centre. */
  function CenterDistSq(e: Element, vp: Viewport): (d: real)
    requires WellFormed(e)
    ensures d >= 0.0
  {
    var c := Center(e);
    var dx := c.x - (vp.x + vp.width / 2.0);
    var dy := c.y - (vp.y + vp.height / 2.0);
    dx * dx + dy * dy
  }

  /** `d` is the Euclidean distance from the element's centre to the viewport
      centre: the square root of `CenterDistSq`, supplied by the caller. */
  predicate IsDistance(d: real, e: Element, vp: Viewport)
    requires WellFormed(e)
  {
    d >= 0.0 && d * d == CenterDistSq(e, vp)
  }

  /** Comparing distances is comparing their squares. */
  lemma DistanceExceeds(d: real, e: Element, vp: Viewport, limit: real)
    requires WellFormed(e) && IsDistance(d, e, vp) && limit >= 0.0
    ensures d > limit <==> CenterDistSq(e, vp) > limit * limit
  {
    if d > limit {
      SquareGrows(d, limit);
    } else if d < limit {
      SquareGrows(limit, d);
    }
  }

  lemma SquareGrows(d: real, l: real)
    requires d > l >= 0.0
    ensures d * d > l * l
  {
    assert d * d - d * l == d * (d - l);
    assert d * l - l * l == l * (d - l);
    assert d * (d - l) > 0.0;
    assert l * (d - l) >= 0.0;
  }

  // ---------------------------------------------------------------- culling

  /** The viewport widened by `margin` on every side. */
  datatype Region = Region(left: real, top: real, right: real, bottom: real)

  function Expanded(vp: Viewport, margin: real): Region
  {
    Region(vp.x - margin, vp.y - margin, vp.x + vp.width + margin, vp.y + vp.height + margin)
  }

  /** The frustum test: with culling on, an element is kept unless its bounds
      lie wholly to one side of the widened viewport. */
  predicate IsInViewport(cfg: CullingConfig, e: Element, vp: Viewport)
    requires WellFormed(e)
  {
    !cfg.enabled ||
      var b := ElementBounds(e);
      var r := Expanded(vp, cfg.margin);
      !(ExtLt(b.right, r.left) || ExtGt(b.left, r.right) || ExtLt(b.bottom, r.top) || ExtGt(b.top, r.bottom))
  }

  /** An element with neither a complete anchor nor a stroke has the bounds
      (+Infinity, -Infinity) and is always culled. */
  lemma NoGeometryIsCulled(cfg: CullingConfig, e: Element, vp: Viewport)
    requires WellFormed(e) && cfg.enabled
    requires e.x.None? || e.y.None?
    requires !HasStroke(e)
    ensures !IsInViewport(cfg, e, vp)
  {
  }

  /** An anchored element with no size and no stroke has a right bound of
      -Infinity and is always culled. */
  lemma BareAnchorIsCulled(cfg: CullingConfig, e: Element, vp: Viewport)
    requires WellFormed(e) && cfg.enabled && e.x.Some? && e.y.Some?
    requires e.width.None? || e.height.None?
    requires e.radius.None? && (e.radiusX.None? || e.radiusY.None?)
    requires !HasStroke(e)
    ensures !IsInViewport(cfg, e, vp)
  {
  }

  /** A box element is kept exactly when its closed box meets the widened viewport. */
  lemma BoxVisibility(cfg: CullingConfig, e: Element, vp: Viewport)
    requires WellFormed(e) && cfg.enabled && !HasStroke(e)
    requires e.x.Some? && e.y.Some? && e.width.Some? && e.height.Some?
    ensures var r := Expanded(vp, cfg.margin); var x, y := e.x.value, e.y.value;
      IsInViewport(cfg, e, vp) <==>
        x <= r.right && x + e.width.value >= r.left && y <= r.bottom && y + e.height.value >= r.top
  {
  }

  /** A circle is kept exactly when its bounding square meets the widened viewport. */
  lemma CircleVisibility(cfg: CullingConfig, e: Element, vp: Viewport)
    requires WellFormed(e) && cfg.enabled && !HasStroke(e)
    requires e.x.Some? && e.y.Some? && (e.width.None? || e.height.None?) && e.radius.Some?
    ensures var r := Expanded(vp, cfg.margin); var x, y, rad := e.x.value, e.y.value, e.radius.value;
      IsInViewport(cfg, e, vp) <==>
        x - rad <= r.right && x + rad >= r.left && y - rad <= r.bottom && y + rad >= r.top
  {
  }

  /** A stroke with one point inside the widened viewport is kept. */
  lemma StrokePointInsideIsKept(cfg: CullingConfig, e: Element, vp: Viewport, k: nat)
    requires WellFormed(e) && e.points.Some? && 2 * k + 1 < |e.points.value|
    requires var r := Expanded(vp, cfg.margin); var pts := e.points.value;
      r.left <= PointX(pts, k) <= r.right && r.top <= PointY(pts, k) <= r.bottom
    ensures IsInViewport(cfg, e, vp)
  {
    BoundsEnclosePoints(e, k);
  }

  function RectElement(x: real, y: real, w: real, h: real): Element
  {
    Element(Rect, Some(x), Some(y), Some(w), Some(h), None, None, None, None, None, None, None, None)
  }

  /** With the default culling options a small rectangle near the origin is
      kept and one at x = 5000 is culled. */
  lemma DefaultCullingExamples()
    ensures IsInViewport(DefaultCulling, RectElement(100.0, 100.0, 50.0, 50.0), DefaultViewport)
    ensures !IsInViewport(DefaultCulling, RectElement(5000.0, 100.0, 50.0, 50.0), DefaultViewport)
  {
    BoxVisibility(DefaultCulling, RectElement(100.0, 100.0, 50.0, 50.0), DefaultViewport);
    BoxVisibility(DefaultCulling, RectElement(5000.0, 100.0, 50.0, 50.0), DefaultViewport);
  }
}
