/** The advanced-shape tool: a list of shapes that creation, duplication,
    pasting and deletion change in place, a selected shape and a clipboard,
    plus the pure parts: the per-type creation defaults, the garden-path
    serialiser, the transform merge and the hit tests.

    JavaScript numbers that may be `undefined` or `NaN` are `Num`: `None`
    stands for both, since every operation modelled here treats them alike
    (arithmetic gives `NaN` again, every comparison is false, both are falsy). */
module Shapes {
  import opened Common

  /** `a <= b` with a number on the left: false when `b` is not a number. */
  predicate AtMost(a: real, b: Num) { b.Some? && a <= b.value }
  /** `a >= b` with a number on the left: false when `b` is not a number. */
  predicate AtLeast(a: real, b: Num) { b.Some? && a >= b.value }

  datatype Point = Point(x: real, y: real)

  /** The `scale` object; a transform may carry only one of its fields. */
  datatype Scale = Scale(x: Num, y: Num)

  datatype Dims = Dims(
    width: Num, height: Num,
    radius: Num, radiusX: Num, radiusY: Num,
    cornerRadius: Num, cornerRadii: Option<seq<real>>,
    sides: Num, points: Num, innerRadius: Num, outerRadius: Num)

  const NoDims := Dims(None, None, None, None, None, None, None, None, None, None, None)

  datatype Style = Style(fill: Option<string>, stroke: Option<string>, strokeWidth: Num, opacity: Num)

  const NoStyle := Style(None, None, None, None)

  datatype Shape = Shape(
    id: string,
    kind: string,
    x: Num,
    y: Num,
    rotation: Num,
    scale: Option<Scale>,
    dims: Dims,
    style: Style,
    tag: Option<string>,
    pathData: Option<string>,
    createdAt: Option<int>)

  /** The options `createBasicShape` reads. */
  datatype Options = Options(
    fill: Option<string>, stroke: Option<string>, strokeWidth: Num, opacity: Num,
    width: Num, height: Num, cornerRadii: Option<seq<real>>,
    radius: Num, radiusX: Num, radiusY: Num,
    sides: Num, points: Num, innerRadius: Num, outerRadius: Num)

  /** `options.v || d` for a number option. */
  function Or(v: Num, d: real): Num { Some(OrElseNum(v, d)) }

  /** `type.charAt(0).toUpperCase() + type.slice(1)` */
  function Capitalized(s: string): (r: string)
    ensures |r| == |s|
    ensures s != [] ==> r[0] == UpperChar(s[0]) && r[1..] == s[1..]
  {
    if s == [] then [] else [UpperChar(s[0])] + s[1..]
  }

  // ---------------------------------------------------------------- creation

  /** The per-type geometry `createBasicShape` adds. */
  function BasicDims(kind: string, o: Options): Dims
  {
    match kind
    case "rectangle" =>
      NoDims.(width := Or(o.width, 100.0), height := Or(o.height, 100.0),
               cornerRadii := if o.cornerRadii.Some? then o.cornerRadii else Some([0.0, 0.0, 0.0, 0.0]))
    case "circle" => NoDims.(radius := Or(o.radius, 50.0))
    case "ellipse" => NoDims.(radiusX := Or(o.radiusX, 60.0), radiusY := Or(o.radiusY, 40.0))
    case "triangle" => NoDims.(sides := Some(3.0), radius := Or(o.radius, 50.0))
    case "polygon" => NoDims.(sides := Or(o.sides, 6.0), radius := Or(o.radius, 50.0))
    case "star" => NoDims.(points := Or(o.points, 5.0), innerRadius := Or(o.innerRadius, 20.0), outerRadius := Or(o.outerRadius, 50.0))
    case _ => NoDims
  }

  /** The shape `createBasicShape` builds when `count` shapes exist. */
  function BasicShape(kind: string, x: Num, y: Num, o: Options, id: string, count: nat, now: int): Shape
  {
    Shape(id, kind, x, y, Some(0.0), Some(Scale(Some(1.0), Some(1.0))), BasicDims(kind, o),
          Style(Some(OrElse(o.fill, "transparent")), Some(OrElse(o.stroke, "#2c2c2c")), Or(o.strokeWidth, 2.0), Or(o.opacity, 1.0)),
          Some(Capitalized(kind) + " " + NatToString(count + 1)), None, Some(now))
  }

  const NoOptions := Options(None, None, None, None, None, None, None, None, None, None, None, None, None, None)

  /** With no options, a rectangle is 100 by 100 with square corners,
      in the default style, unrotated at scale 1, and its tag numbers it. */
  lemma BasicRectangleDefaults(x: Num, y: Num, id: string, count: nat, now: int)
    ensures var s := BasicShape("rectangle", x, y, NoOptions, id, count, now);
      s.dims == NoDims.(width := Some(100.0), height := Some(100.0), cornerRadii := Some([0.0, 0.0, 0.0, 0.0])) &&
      s.style == Style(Some("transparent"), Some("#2c2c2c"), Some(2.0), Some(1.0)) &&
      s.scale == Some(Scale(Some(1.0), Some(1.0))) && s.rotation == Some(0.0) &&
      s.tag == Some("Rectangle " + NatToString(count + 1))
  {
    assert Capitalized("rectangle") == "Rectangle";
    assert Capitalized("rectangle") + " " == "Rectangle ";
  }

  /** With no options, a circle has radius 50 and an ellipse radii 60 and 40. */
  lemma BasicRoundDefaults(o: Options)
    requires o == NoOptions
    ensures BasicDims("circle", o) == NoDims.(radius := Some(50.0))
    ensures BasicDims("ellipse", o) == NoDims.(radiusX := Some(60.0), radiusY := Some(40.0))
  {
    assert "circle" != "rectangle";
    assert "ellipse" != "rectangle" && "ellipse" != "circle";
  }

  /** A triangle always has three sides; with no options a polygon has six,
      and a star five points between radii 20 and 50. */
  lemma BasicPolygonDefaults(o: Options)
    ensures BasicDims("triangle", o).sides == Some(3.0)
    ensures o == NoOptions ==> BasicDims("polygon", o) == NoDims.(sides := Some(6.0), radius := Some(50.0))
    ensures o == NoOptions ==>
      BasicDims("star", o) == NoDims.(points := Some(5.0), innerRadius := Some(20.0), outerRadius := Some(50.0))
  {
    assert "triangle" != "rectangle" && "triangle" != "circle" && "triangle" != "ellipse";
    assert "polygon" != "rectangle" && "polygon" != "circle" && "polygon" != "ellipse" && "polygon" != "triangle";
    assert "star" != "rectangle" && "star" != "circle" && "star" != "ellipse" && "star" != "triangle" && "star" != "polygon";
  }

  datatype Family = Architectural | Garden

  /** The template names of the two dispatch tables. */
  predicate IsTemplate(family: Family, kind: string)
  {
    match family
    case Architectural => kind in {"arch", "column", "beam", "foundation", "window", "door"}
    case Garden => kind in {"garden-bed", "path", "pond", "fountain", "terrace", "greenhouse"}
  }

  function Minus(a: Num, b: Num): Num { if a.Some? && b.Some? then Some(a.value - b.value) else None }
  function Times(a: Num, c: real): Num { Mul(a, Some(c)) }

  /** A number inside a template string; `show` renders a number, and a
      missing one renders as `NaN`. */
  function NumText(show: real -> string, n: Num): string
  {
    if n.Some? then show(n.value) else "NaN"
  }

  /** One indented line of a template path: a command letter and its coordinates. */
  function PathLine(cmd: string, coords: seq<Num>, show: real -> string): string
    decreases |coords|
  {
    if coords == [] then "\n      " + cmd
    else PathLine(cmd, coords[..|coords| - 1], show) + " " + NumText(show, coords[|coords| - 1])
  }

  /** `generateArchPath`: up the left side to 40% of the height, a quadratic
      curve over 80% of the width, and down to the bottom-right corner. */
  function ArchPath(x: Num, y: Num, width: Num, height: Num, show: real -> string): string
  {
    var archHeight := Times(height, 0.6);
    var archWidth := Times(width, 0.8);
    var bottom := Plus(y, height);
    var spring := Minus(bottom, archHeight);
    PathLine("M", [x, bottom], show) + PathLine("L", [x, spring], show) +
    PathLine("Q", [Plus(x, Half(archWidth)), y, Plus(x, archWidth), spring], show) +
    PathLine("L", [Plus(x, width), bottom], show) + PathLine("Z", [], show) + "\n    "
  }

  /** `generateColumnPath`: a shaft 30% as wide as the whole between a
      capital of 15% and a base of 10% of the height, both full width. */
  function ColumnPath(x: Num, y: Num, width: Num, height: Num, show: real -> string): string
  {
    var half := Half(Times(width, 0.3));
    var left := Plus(x, half);
    var right := Minus(Plus(x, width), half);
    var edge := Plus(x, width);
    var capital := Plus(y, Times(height, 0.15));
    var base := Minus(Plus(y, height), Times(height, 0.1));
    var bottom := Plus(y, height);
    PathLine("M", [left, y], show) + PathLine("L", [left, capital], show) +
    PathLine("L", [x, capital], show) + PathLine("L", [x, base], show) +
    PathLine("L", [left, base], show) + PathLine("L", [left, bottom], show) +
    PathLine("L", [right, bottom], show) + PathLine("L", [right, base], show) +
    PathLine("L", [edge, base], show) + PathLine("L", [edge, capital], show) +
    PathLine("L", [right, capital], show) + PathLine("L", [right, y], show) +
    PathLine("Z", [], show) + "\n    "
  }

  /** A shape with only an id. */
  function Blank(id: string): Shape
  {
    Shape(id, "", None, None, None, None, NoDims, NoStyle, None, None, None)
  }

  /** The object an entry of `createArchitecturalShape`'s template table
      returns, before the options are copied in. */
  function ArchitecturalTemplate(kind: string, x: Num, y: Num, width: Num, height: Num, id: string,
                                 show: real -> string): Shape
    requires IsTemplate(Architectural, kind)
  {
    match kind
    case "arch" =>
      Blank(id).(kind := "path", x := Some(0.0), y := Some(0.0), pathData := Some(ArchPath(x, y, width, height, show)),
                 style := Style(Some("transparent"), Some("#2c2c2c"), Some(2.0), None))
    case "column" =>
      Blank(id).(kind := "path", x := Some(0.0), y := Some(0.0), pathData := Some(ColumnPath(x, y, width, height, show)),
                 style := Style(Some("rgba(44, 44, 44, 0.1)"), Some("#2c2c2c"), Some(2.0), None))
    case "beam" =>
      Blank(id).(kind := "rect", x := x, y := Plus(y, Half(Minus(height, Some(20.0)))),
                 dims := NoDims.(width := width, height := Some(20.0), cornerRadius := Some(2.0)),
                 style := Style(Some("rgba(44, 44, 44, 0.15)"), Some("#2c2c2c"), Some(2.0), None))
    case "foundation" =>
      Blank(id).(kind := "rect", x := x, y := Minus(Plus(y, height), Some(15.0)),
                 dims := NoDims.(width := width, height := Some(15.0)),
                 style := Style(Some("rgba(100, 100, 100, 0.2)"), Some("#666666"), Some(2.0), None))
    case _ => Blank(id).(kind := "group", x := x, y := y)
  }

  /** The keys of an `options` object that name a field of a shape here;
      `None` is a key the object does not have. */
  datatype ShapePatch = ShapePatch(
    id: Option<string>, x: Option<Num>, y: Option<Num>, rotation: Option<Num>, scale: Option<Option<Scale>>,
    width: Option<Num>, height: Option<Num>, radius: Option<Num>, radiusX: Option<Num>, radiusY: Option<Num>,
    cornerRadius: Option<Num>,
    fill: Option<Option<string>>, stroke: Option<Option<string>>, strokeWidth: Option<Num>, opacity: Option<Num>,
    tag: Option<Option<string>>, data: Option<Option<string>>)

  const NoPatch := ShapePatch(None, None, None, None, None, None, None, None, None, None, None,
                              None, None, None, None, None, None)

  /** The value of a key: the patch's when it has the key, the shape's own otherwise. */
  function Assigned<T>(p: Option<T>, own: T): T { if p.Some? then p.value else own }

  /** `Object.assign(shape, options)` */
  function Assign(s: Shape, o: ShapePatch): Shape
  {
    s.(id := Assigned(o.id, s.id), x := Assigned(o.x, s.x), y := Assigned(o.y, s.y),
       rotation := Assigned(o.rotation, s.rotation), scale := Assigned(o.scale, s.scale),
       dims := s.dims.(width := Assigned(o.width, s.dims.width), height := Assigned(o.height, s.dims.height),
                       radius := Assigned(o.radius, s.dims.radius), radiusX := Assigned(o.radiusX, s.dims.radiusX),
                       radiusY := Assigned(o.radiusY, s.dims.radiusY),
                       cornerRadius := Assigned(o.cornerRadius, s.dims.cornerRadius)),
       style := Style(Assigned(o.fill, s.style.fill), Assigned(o.stroke, s.style.stroke),
                      Assigned(o.strokeWidth, s.style.strokeWidth), Assigned(o.opacity, s.style.opacity)),
       tag := Assigned(o.tag, s.tag), pathData := Assigned(o.data, s.pathData))
  }

  /** Every key of the options overrides the shape's field and every other
      field is kept; an empty options object changes nothing, and copying the
      same options twice is copying them once. */
  lemma AssignLaws(s: Shape, o: ShapePatch)
    ensures var r := Assign(s, o);
      r.kind == s.kind && r.createdAt == s.createdAt &&
      (o.x.Some? ==> r.x == o.x.value) && (o.x.None? ==> r.x == s.x) &&
      (o.y.Some? ==> r.y == o.y.value) && (o.y.None? ==> r.y == s.y) &&
      (o.fill.Some? ==> r.style.fill == o.fill.value) && (o.fill.None? ==> r.style.fill == s.style.fill) &&
      (o.width.Some? ==> r.dims.width == o.width.value) && (o.width.None? ==> r.dims.width == s.dims.width) &&
      (o.data.Some? ==> r.pathData == o.data.value) && (o.data.None? ==> r.pathData == s.pathData)
    ensures Assign(s, NoPatch) == s
    ensures Assign(Assign(s, o), o) == Assign(s, o)
  {
  }

  /** `createArchitecturalShape` for a known type: the template, the options
      copied over it, then the type, x and y reset to the arguments. */
  function CreatedArchitectural(kind: string, x: Num, y: Num, width: Num, height: Num, o: ShapePatch,
                                id: string, show: real -> string): (r: Shape)
    requires IsTemplate(Architectural, kind)
    ensures r.kind == kind && r.x == x && r.y == y
    ensures o.id.Some? ==> r.id == o.id.value
  {
    Assign(ArchitecturalTemplate(kind, x, y, width, height, id, show), o).(kind := kind, x := x, y := y)
  }

  /** With no path data among the options, the arch and the column carry
      their generated outlines. */
  lemma ArchitecturalOutlines(kind: string, x: Num, y: Num, width: Num, height: Num, o: ShapePatch,
                              id: string, show: real -> string)
    requires IsTemplate(Architectural, kind) && o.data.None?
    ensures var r := CreatedArchitectural(kind, x, y, width, height, o, id, show);
      kind == "arch" ==> r.pathData == Some(ArchPath(x, y, width, height, show))
    ensures var r := CreatedArchitectural(kind, x, y, width, height, o, id, show);
      kind == "column" ==> r.pathData == Some(ColumnPath(x, y, width, height, show))
  {
  }

  /** With no size among the options, the beam and the foundation span the
      requested width at their own fixed heights. */
  lemma ArchitecturalBlocks(kind: string, x: Num, y: Num, width: Num, height: Num, o: ShapePatch,
                            id: string, show: real -> string)
    requires IsTemplate(Architectural, kind) && o.width.None? && o.height.None?
    ensures var r := CreatedArchitectural(kind, x, y, width, height, o, id, show);
      kind == "beam" ==> r.dims.width == width && r.dims.height == Some(20.0)
    ensures var r := CreatedArchitectural(kind, x, y, width, height, o, id, show);
      kind == "foundation" ==> r.dims.width == width && r.dims.height == Some(15.0)
  {
  }

  /** The fields of the `params` object the garden templates read. */
  datatype GardenParams = GardenParams(x: Num, y: Num, width: Num, height: Num, points: seq<Point>, material: Option<string>)

  /** `getPathMaterialColor` */
  function MaterialColor(m: string): string
  {
    match m
    case "gravel" => "rgba(200, 200, 200, 0.6)"
    case "stone" => "rgba(150, 150, 150, 0.7)"
    case "wood" => "rgba(139, 69, 19, 0.4)"
    case "mulch" => "rgba(101, 67, 33, 0.5)"
    case "grass" => "rgba(34, 139, 34, 0.4)"
    case _ => "rgba(150, 150, 150, 0.5)"
  }

  /** `getPathMaterialStroke` */
  function MaterialStroke(m: string): string
  {
    match m
    case "gravel" => "#CCCCCC"
    case "stone" => "#969696"
    case "wood" => "#8B4513"
    case "mulch" => "#654321"
    case "grass" => "#228B22"
    case _ => "#999999"
  }

  /** One segment of the path text: ` L x y`, or `M x y` for the first point. */
  function Segment(p: Point, show: real -> string, first: bool): string
  {
    (if first then "M " else " L ") + show(p.x) + " " + show(p.y)
  }

  /** `createPathShape`'s reduce: `M x0 y0` and then ` L xi yi` for each later
      point; `show` is the number-to-text conversion of the template string. */
  function PathData(points: seq<Point>, show: real -> string): (r: string)
    ensures points == [] ==> r == ""
    ensures |points| == 1 ==> r == Segment(points[0], show, true)
    decreases |points|
  {
    if points == [] then ""
    else if |points| == 1 then Segment(points[0], show, true)
    else PathData(points[..|points| - 1], show) + Segment(points[|points| - 1], show, false)
  }

  /** The number of times `c` occurs in `s`. */
  function Count(s: string, c: char): nat
  {
    if s == [] then 0 else (if s[0] == c then 1 else 0) + Count(s[1..], c)
  }

  lemma {:induction false} CountAppend(a: string, b: string, c: char)
    ensures Count(a + b, c) == Count(a, c) + Count(b, c)
    decreases |a|
  {
    if a == [] {
      assert a + b == b;
    } else {
      assert (a + b)[1..] == a[1..] + b;
      CountAppend(a[1..], b, c);
    }
  }

  /** When numbers render without the letters `M` and `L`, the path text of
      n points holds exactly one `M` and n - 1 `L` commands, and it starts
      with the move to the first point. */
  lemma {:induction false} PathDataCommands(points: seq<Point>, show: real -> string)
    requires points != []
    requires forall v :: Count(show(v), 'M') == 0 && Count(show(v), 'L') == 0
    ensures var d := PathData(points, show);
      Count(d, 'M') == 1 && Count(d, 'L') == |points| - 1 &&
      Segment(points[0], show, true) <= d
    decreases |points|
  {
    var p0 := points[0];
    var head := Segment(p0, show, true);
    CountAppend("M " + show(p0.x) + " ", show(p0.y), 'M');
    CountAppend("M " + show(p0.x), " ", 'M');
    CountAppend("M ", show(p0.x), 'M');
    CountAppend("M " + show(p0.x) + " ", show(p0.y), 'L');
    CountAppend("M " + show(p0.x), " ", 'L');
    CountAppend("M ", show(p0.x), 'L');
    assert Count("M ", 'M') == 1 && Count("M ", 'L') == 0 && Count(" ", 'M') == 0 && Count(" ", 'L') == 0;
    if |points| > 1 {
      var init := points[..|points| - 1];
      var last := points[|points| - 1];
      PathDataCommands(init, show);
      assert init[0] == p0;
      var seg := Segment(last, show, false);
      CountAppend(PathData(init, show), seg, 'M');
      CountAppend(PathData(init, show), seg, 'L');
      CountAppend(" L " + show(last.x) + " ", show(last.y), 'M');
      CountAppend(" L " + show(last.x), " ", 'M');
      CountAppend(" L ", show(last.x), 'M');
      CountAppend(" L " + show(last.x) + " ", show(last.y), 'L');
      CountAppend(" L " + show(last.x), " ", 'L');
      CountAppend(" L ", show(last.x), 'L');
      assert Count(" L ", 'M') == 0 && Count(" L ", 'L') == 1;
    }
  }

  /** The object an entry of `createGardenShape`'s template table returns,
      before the options are copied in. */
  function GardenTemplate(kind: string, p: GardenParams, id: string, show: real -> string): Shape
    requires IsTemplate(Garden, kind)
  {
    var at := Blank(id).(x := p.x, y := p.y);
    match kind
    case "path" =>
      var m := if p.material.Some? then p.material.value else "gravel";
      Blank(id).(kind := "path", pathData := Some(PathData(p.points, show)),
                 style := Style(Some(MaterialColor(m)), Some(MaterialStroke(m)), Some(3.0), Some(0.8)))
    case "pond" =>
      at.(kind := "ellipse", dims := NoDims.(radiusX := Half(p.width), radiusY := Half(p.height)),
          style := Style(Some("rgba(64, 164, 223, 0.4)"), Some("#4094DF"), Some(2.0), None))
    case "greenhouse" => Blank(id).(kind := "group")
    case _ => at.(kind := "group")
  }

  /** `createGardenShape` for a known type: the template, the options copied
      over it, then the type reset to the argument; the position stays the
      template's unless the options give one. */
  function CreatedGarden(kind: string, p: GardenParams, o: ShapePatch, id: string, show: real -> string): (r: Shape)
    requires IsTemplate(Garden, kind)
    ensures r.kind == kind
  {
    Assign(GardenTemplate(kind, p, id, show), o).(kind := kind)
  }

  /** Without options in the way, a garden path carries the serialised points
      and no position, a pond the half extents as radii, and the grouped
      templates other than the greenhouse sit at the given position. */
  lemma GardenLaws(kind: string, p: GardenParams, o: ShapePatch, id: string, show: real -> string)
    requires IsTemplate(Garden, kind)
    ensures var r := CreatedGarden(kind, p, o, id, show);
      kind == "path" && o.data.None? ==> r.pathData == Some(PathData(p.points, show))
    ensures var r := CreatedGarden(kind, p, o, id, show);
      kind == "path" && o.x.None? && o.y.None? ==> r.x.None? && r.y.None?
    ensures var r := CreatedGarden(kind, p, o, id, show);
      kind == "pond" && o.radiusX.None? && o.radiusY.None? ==>
        r.dims.radiusX == Half(p.width) && r.dims.radiusY == Half(p.height)
    ensures var r := CreatedGarden(kind, p, o, id, show);
      kind in {"garden-bed", "pond", "fountain", "terrace"} ==>
        (o.x.None? ==> r.x == p.x) && (o.y.None? ==> r.y == p.y)
    ensures var r := CreatedGarden(kind, p, o, id, show);
      o.x.Some? ==> r.x == o.x.value
  {
  }

  // ---------------------------------------------------------------- transforms

  /** The fields of a `transformShape` argument; absent fields are `None`. */
  datatype Transform = Transform(x: Option<real>, y: Option<real>, rotation: Option<real>, scale: Option<Scale>)

  /** `{ ...shape.scale, ...scale }`: a field of the patch wins when present. */
  function MergeScale(prev: Option<Scale>, patch: Scale): (r: Scale)
    ensures patch.x.Some? ==> r.x == patch.x
    ensures patch.y.Some? ==> r.y == patch.y
    ensures patch.x.None? ==> r.x == (if prev.Some? then prev.value.x else None)
    ensures patch.y.None? ==> r.y == (if prev.Some? then prev.value.y else None)
  {
    var base := if prev.Some? then prev.value else Scale(None, None);
    Scale(if patch.x.Some? then patch.x else base.x, if patch.y.Some? then patch.y else base.y)
  }

  /** `transformShape`: overwrite the position and rotation that are given
      and merge the scale. */
  function Transformed(s: Shape, t: Transform): Shape
  {
    s.(x := if t.x.Some? then t.x else s.x,
       y := if t.y.Some? then t.y else s.y,
       rotation := if t.rotation.Some? then t.rotation else s.rotation,
       scale := if t.scale.Some? then Some(MergeScale(s.scale, t.scale.value)) else s.scale)
  }

  /** Only the fields present in the transform change; an empty transform is
      the identity, and applying the same transform twice is applying it once. */
  lemma TransformLaws(s: Shape, t: Transform)
    ensures var r := Transformed(s, t);
      r.id == s.id && r.kind == s.kind && r.dims == s.dims && r.style == s.style && r.tag == s.tag &&
      (t.x.None? ==> r.x == s.x) && (t.y.None? ==> r.y == s.y) &&
      (t.rotation.None? ==> r.rotation == s.rotation) && (t.scale.None? ==> r.scale == s.scale) &&
      (t.x.Some? ==> r.x == t.x) && (t.y.Some? ==> r.y == t.y)
    ensures Transformed(s, Transform(None, None, None, None)) == s
    ensures Transformed(Transformed(s, t), t) == Transformed(s, t)
  {
  }

  // ---------------------------------------------------------------- hit tests

  function ScaleX(s: Shape): Num { if s.scale.Some? then s.scale.value.x else None }
  function ScaleY(s: Shape): Num { if s.scale.Some? then s.scale.value.y else None }

  /** What `getShapeAtPoint` comes back with: a shape, `null`, or the
      exception a hit test threw. */
  datatype Probe = Found(shape: Shape) | Missed | Threw

  /** The geometry of `isPointInShape`: a closed box for the type `rect`, a
      closed disc for the type `circle`, and nothing for every other type.
      The disc compares squared distances, which agrees with the square-root
      comparison (Common.AtMostSquared). */
  predicate IsPointInShape(px: real, py: real, s: Shape)
  {
    if s.kind == "rect" then
      var w := Mul(s.dims.width, ScaleX(s));
      var h := Mul(s.dims.height, ScaleY(s));
      s.x.Some? && s.y.Some? && w.Some? && h.Some? &&
      s.x.value <= px <= s.x.value + w.value && s.y.value <= py <= s.y.value + h.value
    else if s.kind == "circle" then
      var reach := Mul(s.dims.radius, MaxNum(ScaleX(s), ScaleY(s)));
      s.x.Some? && s.y.Some? && reach.Some? && reach.value >= 0.0 &&
      (px - s.x.value) * (px - s.x.value) + (py - s.y.value) * (py - s.y.value) <= reach.value * reach.value
    else false
  }

  /** `isPointInShape` as the source evaluates it, `None` where it throws a
      `TypeError`: reading `scale.x` of a shape without a `scale`, which a
      `circle` always does and a `rect` does once the point is not left of it. */
  function HitTest(px: real, py: real, s: Shape): (r: Option<bool>)
    ensures r.None? <==> s.scale.None? && (s.kind == "circle" || (s.kind == "rect" && AtLeast(px, s.x)))
    ensures r.Some? ==> r.value == IsPointInShape(px, py, s)
  {
    if s.kind == "rect" then
      if !AtLeast(px, s.x) then Some(false)
      else if s.scale.None? then None
      else Some(IsPointInShape(px, py, s))
    else if s.kind == "circle" then
      if s.scale.None? then None else Some(IsPointInShape(px, py, s))
    else Some(false)
  }

  /** Only the types `rect` and `circle` can be hit. */
  lemma OnlyRectAndCircleHit(px: real, py: real, s: Shape)
    requires IsPointInShape(px, py, s)
    ensures s.kind == "rect" || s.kind == "circle"
  {
  }

  /** A shape made by `createBasicShape` carries a scale, so the hit test
      never throws on it. A rectangle made there has the type `rectangle`,
      which the hit test does not know, so no point ever hits it; the same
      holds for every architectural and garden template, whatever options it
      was given, since its type is its name. */
  lemma TemplatesNeverHit(px: real, py: real, x: Num, y: Num, o: Options, id: string, count: nat, now: int,
                          kind: string, width: Num, height: Num, patch: ShapePatch, show: real -> string,
                          p: GardenParams)
    ensures HitTest(px, py, BasicShape(kind, x, y, o, id, count, now)).Some?
    ensures HitTest(px, py, BasicShape("rectangle", x, y, o, id, count, now)) == Some(false)
    ensures IsTemplate(Architectural, kind) ==>
      HitTest(px, py, CreatedArchitectural(kind, x, y, width, height, patch, id, show)) == Some(false)
    ensures IsTemplate(Garden, kind) ==>
      HitTest(px, py, CreatedGarden(kind, p, patch, id, show)) == Some(false)
  {
  }

  /** A basic circle at a given centre contains that centre exactly when its
      radius option is missing, zero or positive; with the default scale the
      disc is the one of radius `options.radius || 50`. */
  lemma BasicCircleHit(px: real, py: real, x: real, y: real, o: Options, id: string, count: nat, now: int)
    ensures var c := BasicShape("circle", Some(x), Some(y), o, id, count, now);
      HitTest(x, y, c) == Some(true) <==> (o.radius.None? || o.radius.value >= 0.0)
    ensures var c := BasicShape("circle", Some(x), Some(y), o, id, count, now);
      var r := OrElseNum(o.radius, 50.0);
      HitTest(px, py, c) == Some(r >= 0.0 && (px - x) * (px - x) + (py - y) * (py - y) <= r * r)
  {
    var c := BasicShape("circle", Some(x), Some(y), o, id, count, now);
    assert MaxNum(ScaleX(c), ScaleY(c)) == Some(1.0);
  }

  /** A `rect` shape with a box of non-negative size contains its four corners. */
  lemma RectContainsCorners(s: Shape)
    requires s.kind == "rect" && s.x.Some? && s.y.Some?
    requires Mul(s.dims.width, ScaleX(s)).Some? && Mul(s.dims.height, ScaleY(s)).Some?
    requires Mul(s.dims.width, ScaleX(s)).value >= 0.0 && Mul(s.dims.height, ScaleY(s)).value >= 0.0
    ensures var w := Mul(s.dims.width, ScaleX(s)).value;
      var h := Mul(s.dims.height, ScaleY(s)).value;
      IsPointInShape(s.x.value, s.y.value, s) && IsPointInShape(s.x.value + w, s.y.value, s) &&
      IsPointInShape(s.x.value, s.y.value + h, s) && IsPointInShape(s.x.value + w, s.y.value + h, s)
  {
  }

  /** `shape.width || shape.radius || shape.radiusX || 0` and its vertical twin. */
  function FirstTruthy(a: Num, b: Num, c: Num): real
  {
    if TruthyNum(a) then a.value else if TruthyNum(b) then b.value else OrElseNum(c, 0.0)
  }

  /** The filter of `getShapesInArea`: the shape's extent overlaps the open
      rectangle. A shape without a position is never in an area. */
  predicate InArea(ax: real, ay: real, aw: real, ah: real, s: Shape)
  {
    s.x.Some? && s.y.Some? &&
    var right := s.x.value + FirstTruthy(s.dims.width, s.dims.radius, s.dims.radiusX);
    var bottom := s.y.value + FirstTruthy(s.dims.height, s.dims.radius, s.dims.radiusY);
    s.x.value < ax + aw && right > ax && s.y.value < ay + ah && bottom > ay
  }

  /** Moving a shape and an area by the same offset keeps the shape in the area. */
  lemma InAreaTranslates(ax: real, ay: real, aw: real, ah: real, s: Shape, dx: real, dy: real)
    requires s.x.Some? && s.y.Some?
    ensures InArea(ax, ay, aw, ah, s) <==>
      InArea(ax + dx, ay + dy, aw, ah, s.(x := Some(s.x.value + dx), y := Some(s.y.value + dy)))
  {
  }

  /** `getShapesInArea` */
  function ShapesInArea(shapes: seq<Shape>, ax: real, ay: real, aw: real, ah: real): (r: seq<Shape>)
    ensures forall s | s in r :: s in shapes && InArea(ax, ay, aw, ah, s)
    ensures forall s | s in shapes && InArea(ax, ay, aw, ah, s) :: s in r
  {
    var p := (s: Shape) => InArea(ax, ay, aw, ah, s);
    FilterMembers(shapes, p);
    Filter(shapes, p)
  }

  /** `getShapesByType` */
  function ShapesByType(shapes: seq<Shape>, kind: string): (r: seq<Shape>)
    ensures forall s | s in r :: s in shapes && s.kind == kind
    ensures forall s | s in shapes && s.kind == kind :: s in r
  {
    var p := (s: Shape) => s.kind == kind;
    FilterMembers(shapes, p);
    Filter(shapes, p)
  }

  // ---------------------------------------------------------------- look-up and clipboard

  /** The index `findIndex` reports for an id, `|shapes|` when none matches. */
  function FindShape(shapes: seq<Shape>, id: string): (k: nat)
    ensures k <= |shapes|
    ensures k < |shapes| ==> shapes[k].id == id
    ensures forall i :: 0 <= i < k ==> shapes[i].id != id
    ensures k == |shapes| <==> forall i :: 0 <= i < |shapes| ==> shapes[i].id != id
  {
    FirstIndex(shapes, (s: Shape) => s.id == id)
  }

  /** `shapes.find(shape => shape.id === id)` */
  function ShapeById(shapes: seq<Shape>, id: string): (r: Option<Shape>)
    ensures r.Some? ==> r.value in shapes && r.value.id == id
    ensures r.None? <==> forall s | s in shapes :: s.id != id
  {
    var k := FindShape(shapes, id);
    if k < |shapes| then Some(shapes[k]) else None
  }

  /** `selectShapes`: the shapes of the given ids in their order, ids with
      no shape dropped. */
  function ShapesByIds(shapes: seq<Shape>, ids: seq<string>): (r: seq<Shape>)
    ensures |r| <= |ids|
    ensures forall s | s in r :: s in shapes && s.id in ids
    ensures forall i | 0 <= i < |ids| && (exists s | s in shapes :: s.id == ids[i]) ::
      ShapeById(shapes, ids[i]).value in r
  {
    if ids == [] then []
    else
      var rest := ShapesByIds(shapes, ids[1..]);
      var found := ShapeById(shapes, ids[0]);
      var r := if found.Some? then [found.value] + rest else rest;
      assert forall i | 1 <= i < |ids| :: ids[i] == ids[1..][i - 1];
      r
  }

  /** `${shape.tag}`: a missing tag renders as `undefined`. */
  function TagText(tag: Option<string>): string
  {
    if tag.Some? then tag.value else "undefined"
  }

  /** `duplicateShape`'s copy: a fresh id, 20 units right and down, and the
      tag marked as a copy. */
  function Duplicated(s: Shape, id: string): (d: Shape)
    ensures d.(id := s.id, x := s.x, y := s.y, tag := s.tag) == s
    ensures d.id == id && d.tag == Some(TagText(s.tag) + " (Copy)")
    ensures s.x.Some? ==> d.x == Some(s.x.value + 20.0)
    ensures s.y.Some? ==> d.y == Some(s.y.value + 20.0)
    ensures s.x.None? ==> d.x.None?
    ensures s.y.None? ==> d.y.None?
  {
    s.(id := id, x := Add(s.x, 20.0), y := Add(s.y, 20.0), tag := Some(TagText(s.tag) + " (Copy)"))
  }

  /** `pasteShape`'s copy of the clipboard's first shape: at the given
      position when it is truthy, otherwise 20 units from the original. */
  function Pasted(c: Shape, x: Num, y: Num, id: string): (d: Shape)
    ensures d.(id := c.id, x := c.x, y := c.y, tag := c.tag) == c
    ensures TruthyNum(x) ==> d.x == x
    ensures TruthyNum(y) ==> d.y == y
  {
    c.(id := id, x := if TruthyNum(x) then x else Add(c.x, 20.0),
       y := if TruthyNum(y) then y else Add(c.y, 20.0),
       tag := Some(TagText(c.tag) + " (Copy)"))
  }

  /** Pasting without a position (or at 0, 0) is duplicating. */
  lemma PasteWithoutPositionDuplicates(c: Shape, x: Num, y: Num, id: string)
    requires !TruthyNum(x) && !TruthyNum(y)
    ensures Pasted(c, x, y, id) == Duplicated(c, id)
  {
  }

  /** `deleteShape`'s list: the first shape of the id removed, when there is one. */
  function WithoutShape(shapes: seq<Shape>, id: string): (r: seq<Shape>)
    ensures (forall s | s in shapes :: s.id != id) ==> r == shapes
    ensures (exists s | s in shapes :: s.id == id) ==> |r| == |shapes| - 1
  {
    var k := FindShape(shapes, id);
    if k < |shapes| then RemoveAt(shapes, k) else shapes
  }

  predicate UniqueShapeIds(shapes: seq<Shape>)
  {
    forall i, j | 0 <= i < j < |shapes| :: shapes[i].id != shapes[j].id
  }

  /** With unique ids, deleting removes exactly the shape of that id and
      keeps every other shape and the uniqueness. */
  lemma {:induction false} DeleteRemovesShape(shapes: seq<Shape>, id: string)
    requires UniqueShapeIds(shapes)
    ensures var r := WithoutShape(shapes, id);
      UniqueShapeIds(r) && (forall s | s in r :: s.id != id && s in shapes) &&
      (forall s | s in shapes && s.id != id :: s in r)
  {
    var k := FindShape(shapes, id);
    var r := WithoutShape(shapes, id);
    if k < |shapes| {
      assert forall i | 0 <= i < |r| :: r[i] == shapes[if i < k then i else i + 1];
      forall s | s in shapes && s.id != id ensures s in r {
        var i :| 0 <= i < |shapes| && shapes[i] == s;
        assert i != k;
        if i < k { assert r[i] == s; } else { assert r[i - 1] == s; }
      }
    }
  }

  // ---------------------------------------------------------------- the store

  /** The state of `useAdvancedShapes`: the shape list, the selected shape
      and the clipboard of copies. */
  class ShapeStore {
    var shapes: seq<Shape>
    var selected: Option<Shape>
    var clipboard: seq<Shape>

    constructor ()
      ensures shapes == [] && selected == None && clipboard == []
    {
      shapes := [];
      selected := None;
      clipboard := [];
    }

    /** `createBasicShape`; the tag counts the shapes already there. */
    method CreateBasicShape(kind: string, x: Num, y: Num, o: Options, id: string, now: int) returns (s: Shape)
      modifies this
      ensures s == BasicShape(kind, x, y, o, id, |old(shapes)|, now)
      ensures shapes == old(shapes) + [s]
      ensures selected == old(selected) && clipboard == old(clipboard)
    {
      s := BasicShape(kind, x, y, o, id, |shapes|, now);
      shapes := shapes + [s];
    }

    /** `createArchitecturalShape`: an unknown type yields nothing and adds nothing. */
    method CreateArchitecturalShape(kind: string, x: Num, y: Num, width: Num, height: Num, o: ShapePatch,
                                    id: string, show: real -> string) returns (r: Option<Shape>)
      modifies this
      ensures IsTemplate(Architectural, kind) ==>
        r == Some(CreatedArchitectural(kind, x, y, width, height, o, id, show)) && shapes == old(shapes) + [r.value]
      ensures !IsTemplate(Architectural, kind) ==> r == None && shapes == old(shapes)
      ensures selected == old(selected) && clipboard == old(clipboard)
    {
      if IsTemplate(Architectural, kind) {
        var s := CreatedArchitectural(kind, x, y, width, height, o, id, show);
        shapes := shapes + [s];
        r := Some(s);
      } else {
        r := None;
      }
    }

    /** `createGardenShape`: an unknown type yields nothing and adds nothing. */
    method CreateGardenShape(kind: string, p: GardenParams, o: ShapePatch, id: string, show: real -> string)
      returns (r: Option<Shape>)
      modifies this
      ensures IsTemplate(Garden, kind) ==>
        r == Some(CreatedGarden(kind, p, o, id, show)) && shapes == old(shapes) + [r.value]
      ensures !IsTemplate(Garden, kind) ==> r == None && shapes == old(shapes)
      ensures selected == old(selected) && clipboard == old(clipboard)
    {
      if IsTemplate(Garden, kind) {
        var s := CreatedGarden(kind, p, o, id, show);
        shapes := shapes + [s];
        r := Some(s);
      } else {
        r := None;
      }
    }

    /** `copyShape` */
    method CopyShape(s: Shape)
      modifies this
      ensures clipboard == [s]
      ensures shapes == old(shapes) && selected == old(selected)
    {
      clipboard := [s];
    }

    /** `copyShapes` */
    method CopyShapes(list: seq<Shape>)
      modifies this
      ensures clipboard == list
      ensures shapes == old(shapes) && selected == old(selected)
    {
      clipboard := list;
    }

    /** `pasteShape`: nothing on an empty clipboard, otherwise a copy of its
      first shape appended. */
    method PasteShape(x: Num, y: Num, id: string) returns (r: Option<Shape>)
      modifies this
      ensures old(clipboard) == [] ==> r == None && shapes == old(shapes)
      ensures old(clipboard) != [] ==>
        r == Some(Pasted(old(clipboard)[0], x, y, id)) && shapes == old(shapes) + [r.value]
      ensures selected == old(selected) && clipboard == old(clipboard)
    {
      if clipboard == [] {
        r := None;
      } else {
        var d := Pasted(clipboard[0], x, y, id);
        shapes := shapes + [d];
        r := Some(d);
      }
    }

    /** `duplicateShape` */
    method DuplicateShape(s: Shape, id: string) returns (d: Shape)
      modifies this
      ensures d == Duplicated(s, id)
      ensures shapes == old(shapes) + [d]
      ensures selected == old(selected) && clipboard == old(clipboard)
    {
      d := Duplicated(s, id);
      shapes := shapes + [d];
    }

    /** `deleteShape`: true exactly when a shape had the id. */
    method DeleteShape(id: string) returns (deleted: bool)
      modifies this
      ensures deleted <==> exists s | s in old(shapes) :: s.id == id
      ensures shapes == WithoutShape(old(shapes), id)
      ensures selected == old(selected) && clipboard == old(clipboard)
    {
      var k := FindShape(shapes, id);
      if k < |shapes| {
        shapes := RemoveAt(shapes, k);
        deleted := true;
      } else {
        deleted := false;
      }
    }

    /** `deleteSelectedShapes`: deletes the selected shape's id; the
      selection itself is kept. */
    method DeleteSelectedShapes() returns (deleted: bool)
      modifies this
      ensures old(selected).None? ==> !deleted && shapes == old(shapes)
      ensures old(selected).Some? ==>
        (deleted <==> exists s | s in old(shapes) :: s.id == old(selected).value.id) &&
        shapes == WithoutShape(old(shapes), old(selected).value.id)
      ensures selected == old(selected) && clipboard == old(clipboard)
    {
      if selected.Some? {
        deleted := DeleteShape(selected.value.id);
      } else {
        deleted := false;
      }
    }

    /** `selectShape`: the first shape of the id, or nothing. */
    method SelectShape(id: string)
      modifies this
      ensures selected == ShapeById(old(shapes), id)
      ensures shapes == old(shapes) && clipboard == old(clipboard)
    {
      selected := ShapeById(shapes, id);
    }

    /** `getShapeAtPoint`: from the top of the list (its end) down, the
      first shape that contains the point, nothing when none does, and the
      `TypeError` of the first hit test on the way that throws. */
    method GetShapeAtPoint(px: real, py: real) returns (r: Probe)
      ensures r.Found? ==> exists i | 0 <= i < |shapes| :: (shapes[i] == r.shape &&
        HitTest(px, py, shapes[i]) == Some(true) && forall j | i < j < |shapes| :: HitTest(px, py, shapes[j]) == Some(false))
      ensures r.Threw? ==> exists i | 0 <= i < |shapes| :: (HitTest(px, py, shapes[i]).None? &&
        forall j | i < j < |shapes| :: HitTest(px, py, shapes[j]) == Some(false))
      ensures r.Missed? <==> forall s | s in shapes :: HitTest(px, py, s) == Some(false)
    {
      var i := |shapes|;
      while i > 0
        invariant 0 <= i <= |shapes|
        invariant forall j | i <= j < |shapes| :: HitTest(px, py, shapes[j]) == Some(false)
      {
        i := i - 1;
        var hit := HitTest(px, py, shapes[i]);
        if hit.None? {
          return Threw;
        }
        if hit.value {
          return Found(shapes[i]);
        }
      }
      return Missed;
    }
  }
}
