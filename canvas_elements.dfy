/** The drawn-element store of the canvas: freehand lines, simple shapes,
    images and texts, with the stroke-point appender, the plant icon and
    colour tables and the spacing-text parser. */
module CanvasElements {
  import opened Common

  // ---------------------------------------------------------------- look-up tables

  /** The seedling `getItemIcon` falls back to, as the file spells it. */
  const DefaultIcon: string := "\U{F0}\U{178}\U{152}\U{B1}"

  /** `getItemIcon`. The icon literals are kept exactly as the file holds
      them: each emoji's UTF-8 bytes were once read as Windows-1252 and saved
      again, so every icon is a short run of Latin letters and punctuation
      (the apple is U+00F0 U+0178 U+017D), not the emoji itself. */
  function ItemIcon(kind: string): string
  {
    match kind
    case "FRUITS" => "\U{F0}\U{178}\U{17D}"
    case "HERBS" => "\U{F0}\U{178}\U{152}\U{BF}"
    case "VEGETABLES" => "\U{F0}\U{178}\U{A5}\U{2022}"
    case "ROOTS" => "\U{F0}\U{178}\U{A5}\U{201D}"
    case "TREES" => "\U{F0}\U{178}\U{152}\U{B3}"
    case "FLOWERS" => "\U{F0}\U{178}\U{152}\U{B8}"
    case "CROPS" => "\U{F0}\U{178}\U{152}\U{BE}"
    case "INVASIVE_SPECIES" => "\U{E2}\U{161}\U{A0}\U{EF}\U{B8}"
    case _ => DefaultIcon
  }

  /** `getPlantColor` */
  function PlantColor(kind: string): string
  {
    match kind
    case "FRUITS" => "#FF4081"
    case "HERBS" => "#4CAF50"
    case "VEGETABLES" => "#FF9800"
    case "ROOTS" => "#8D6E63"
    case "TREES" => "#2E7D32"
    case "FLOWERS" => "#E91E63"
    case "CROPS" => "#FFC107"
    case "INVASIVE_SPECIES" => "#F44336"
    case _ => "#65FF86"
  }

  predicate KnownCategory(kind: string)
  {
    kind in {"FRUITS", "HERBS", "VEGETABLES", "ROOTS", "TREES", "FLOWERS", "CROPS", "INVASIVE_SPECIES"}
  }

  /** Unknown categories get the seedling icon and the light-green accent;
      no known category shares either default. */
  lemma LookupDefaults(kind: string)
    ensures !KnownCategory(kind) ==> ItemIcon(kind) == DefaultIcon && PlantColor(kind) == "#65FF86"
    ensures KnownCategory(kind) ==> ItemIcon(kind) != DefaultIcon && PlantColor(kind) != "#65FF86"
  {
  }

  // ---------------------------------------------------------------- parseSpacing

  /** The characters of `[\d.]`. */
  predicate IsNumChar(c: char) { IsDigit(c) || c == '.' }

  /** The end of the run of `[\d.]` characters starting at `i`. */
  function RunEnd(s: string, i: nat): (j: nat)
    requires i <= |s|
    ensures i <= j <= |s|
    ensures forall k | i <= k < j :: IsNumChar(s[k])
    ensures j < |s| ==> !IsNumChar(s[j])
    decreases |s| - i
  {
    if i < |s| && IsNumChar(s[i]) then RunEnd(s, i + 1) else i
  }

  /** The first index holding a `[\d.]` character, `|s|` when there is none. */
  function FirstNumChar(s: string): (i: nat)
    ensures i <= |s|
    ensures i < |s| ==> IsNumChar(s[i])
    ensures forall k | 0 <= k < i :: !IsNumChar(s[k])
  {
    FirstIndex(s, IsNumChar)
  }

  /** The two groups of `/([\d.]+)(?:-([\d.]+))?m?/` at its leftmost match:
      a maximal run of digits and dots, then optionally a dash and a second
      maximal run. */
  datatype SpacingMatch = SpacingMatch(low: string, high: Option<string>)

  function MatchSpacing(s: string): (r: Option<SpacingMatch>)
    ensures r.None? <==> forall k | 0 <= k < |s| :: !IsNumChar(s[k])
    ensures r.Some? ==> r.value.low != [] && forall c | c in r.value.low :: IsNumChar(c)
    ensures r.Some? && r.value.high.Some? ==>
      r.value.high.value != [] && forall c | c in r.value.high.value :: IsNumChar(c)
  {
    var i := FirstNumChar(s);
    if i == |s| then None
    else
      var j := RunEnd(s, i);
      var low := s[i..j];
      assert forall c | c in low :: IsNumChar(c) by {
        forall c | c in low ensures IsNumChar(c) {
          var k :| 0 <= k < |low| && low[k] == c;
          assert s[i + k] == c;
        }
      }
      if j + 1 < |s| && s[j] == '-' && IsNumChar(s[j + 1]) then
        var e := RunEnd(s, j + 1);
        var high := s[j + 1..e];
        assert forall c | c in high :: IsNumChar(c) by {
          forall c | c in high ensures IsNumChar(c) {
            var k :| 0 <= k < |high| && high[k] == c;
            assert s[j + 1 + k] == c;
          }
        }
        Some(SpacingMatch(low, Some(high)))
      else Some(SpacingMatch(low, None))
  }

  function DigitValue(c: char): nat
    requires IsDigit(c)
  {
    (c as int - '0' as int) as nat
  }

  /** The number of leading digits. */
  function DigitRun(s: string): (k: nat)
    ensures k <= |s|
    ensures forall i | 0 <= i < k :: IsDigit(s[i])
    ensures k < |s| ==> !IsDigit(s[k])
  {
    if s != [] && IsDigit(s[0]) then 1 + DigitRun(s[1..]) else 0
  }

  /** The value of a run of decimal digits. */
  function IntValue(d: string): nat
    requires forall i | 0 <= i < |d| :: IsDigit(d[i])
  {
    if d == [] then 0 else 10 * IntValue(d[..|d| - 1]) + DigitValue(d[|d| - 1])
  }

  /** The value of the digits after a decimal point. */
  function FracValue(d: string): real
    requires forall i | 0 <= i < |d| :: IsDigit(d[i])
  {
    if d == [] then 0.0 else (DigitValue(d[0]) as real + FracValue(d[1..])) / 10.0
  }

  /** `parseFloat` on a string of digits and dots: the digits, then a point
      and more digits; `NaN` when neither side has a digit. */
  function ParseFloat(t: string): (r: JsNumber)
    requires forall c | c in t :: IsNumChar(c)
  {
    var k := DigitRun(t);
    var whole := IntValue(t[..k]);
    if k < |t| then
      var rest := t[k + 1..];
      var m := DigitRun(rest);
      if k == 0 && m == 0 then NaN else Finite(whole as real + FracValue(rest[..m]))
    else if k == 0 then NaN
    else Finite(whole as real)
  }

  function Average(a: JsNumber, b: JsNumber): JsNumber
  {
    if a.Finite? && b.Finite? then Finite((a.v + b.v) / 2.0) else NaN
  }

  /** `parseSpacing`: 1 metre without a truthy text or a match, otherwise the
      mean of the two bounds, a single bound counting as both. */
  function ParseSpacing(s: Option<string>): (r: JsNumber)
    ensures !Truthy(s) ==> r == Finite(1.0)
    ensures Truthy(s) && MatchSpacing(s.value).None? ==> r == Finite(1.0)
  {
    if !Truthy(s) then Finite(1.0)
    else
      var m := MatchSpacing(s.value);
      if m.None? then Finite(1.0)
      else
        var low := ParseFloat(m.value.low);
        var high := if m.value.high.Some? then ParseFloat(m.value.high.value) else low;
        Average(low, high)
  }

  /** A run of `[\d.]` characters that stops at `n` ends there. */
  lemma {:induction false} RunEndAt(s: string, i: nat, n: nat)
    requires i <= n <= |s|
    requires forall k | i <= k < n :: IsNumChar(s[k])
    requires n < |s| ==> !IsNumChar(s[n])
    ensures RunEnd(s, i) == n
    decreases n - i
  {
    if i < n {
      RunEndAt(s, i + 1, n);
    }
  }

  /** A bound with no range: `"a"` and `"am"` give `a`. */
  lemma SpacingSingle(a: string, unit: string)
    requires a != [] && forall c | c in a :: IsNumChar(c)
    requires unit == "" || unit == "m"
    ensures ParseSpacing(Some(a + unit)) == Average(ParseFloat(a), ParseFloat(a))
    ensures ParseFloat(a).Finite? ==> ParseSpacing(Some(a + unit)) == ParseFloat(a)
  {
    var s := a + unit;
    assert IsNumChar(s[0]) by { assert s[0] == a[0] && a[0] in a; }
    assert FirstNumChar(s) == 0;
    forall k | 0 <= k < |a| ensures IsNumChar(s[k]) {
      assert s[k] == a[k] && a[k] in a;
    }
    RunEndAt(s, 0, |a|);
    assert s[..|a|] == a;
    assert MatchSpacing(s) == Some(SpacingMatch(a, None));
  }

  /** A range: `"a-bm"` gives the mean of `a` and `b`. */
  lemma SpacingRange(a: string, b: string)
    requires a != [] && forall c | c in a :: IsNumChar(c)
    requires b != [] && forall c | c in b :: IsNumChar(c)
    ensures ParseSpacing(Some(a + "-" + b + "m")) == Average(ParseFloat(a), ParseFloat(b))
  {
    var s := a + "-" + b + "m";
    var n := |a|;
    assert IsNumChar(s[0]) by { assert s[0] == a[0] && a[0] in a; }
    assert FirstNumChar(s) == 0;
    forall k | 0 <= k < n ensures IsNumChar(s[k]) {
      assert s[k] == a[k] && a[k] in a;
    }
    assert s[n] == '-';
    RunEndAt(s, 0, n);
    forall k | n + 1 <= k < n + 1 + |b| ensures IsNumChar(s[k]) {
      assert s[k] == b[k - n - 1] && b[k - n - 1] in b;
    }
    assert s[n + 1 + |b|] == 'm';
    RunEndAt(s, n + 1, n + 1 + |b|);
    assert s[..n] == a;
    assert s[n + 1..n + 1 + |b|] == b;
    assert MatchSpacing(s) == Some(SpacingMatch(a, Some(b)));
  }

  /** The example of the source's comment: `"8-15m"` averages to 11.5. */
  lemma SpacingExample(s: string)
    requires s == "8-15m"
    ensures ParseSpacing(Some(s)) == Finite(11.5)
  {
    var a, b := "8", "15";
    assert s == a + "-" + b + "m";
    SpacingRange(a, b);
    ParseEight(a);
    ParseFifteen(b);
  }

  lemma ParseEight(a: string)
    requires a == "8"
    ensures ParseFloat(a) == Finite(8.0)
  {
    assert DigitRun(a) == 1;
    assert a[..1] == a;
    assert IntValue(a) == 8;
  }

  lemma ParseFifteen(b: string)
    requires b == "15"
    ensures ParseFloat(b) == Finite(15.0)
  {
    assert DigitRun(b) == 2;
    assert b[..2] == b;
    var one := b[..1];
    assert one[..0] == [];
    assert IntValue(one) == 1;
    assert IntValue(b) == 10 * IntValue(one) + DigitValue(b[1]);
  }

  // ---------------------------------------------------------------- lines

  datatype Point = Point(x: real, y: real)

  datatype Line = Line(
    id: string,
    tag: string,
    tool: string,
    toolOption: string,
    points: seq<real>,
    stroke: string,
    strokeWidth: real,
    opacity: real,
    tension: real,
    lineCap: string,
    composite: string)

  /** The brush parameters a tool option selects. */
  datatype Brush = Brush(strokeWidth: real, tension: real, lineCap: string)

  function BrushFor(toolOption: string, thickness: real): (b: Brush)
    ensures toolOption == "marker" ==> b.strokeWidth == thickness / 8.0
    ensures toolOption == "spray" ==> b.strokeWidth == thickness / 12.0
    ensures toolOption == "calligraphy" ==> b.strokeWidth == thickness / 6.0 && b.lineCap == "square"
    ensures toolOption !in {"marker", "spray", "calligraphy"} ==>
      b == Brush(thickness / 10.0, 0.5, "round")
  {
    if toolOption == "marker" then Brush(thickness / 8.0, 0.3, "round")
    else if toolOption == "spray" then Brush(thickness / 12.0, 0.8, "round")
    else if toolOption == "calligraphy" then Brush(thickness / 6.0, 0.5, "square")
    else Brush(thickness / 10.0, 0.5, "round")
  }

  /** The line `createLine` starts when `count` lines exist: a zero-length
      segment at the cursor, erasing exactly for the eraser tool. */
  function NewLine(pos: Point, tool: string, toolOption: string, color: string, thickness: real,
                   opacity: real, id: string, count: nat): (l: Line)
    ensures l.points == [pos.x, pos.y, pos.x, pos.y]
    ensures l.composite == "destination-out" <==> tool == "eraser"
    ensures l.strokeWidth == BrushFor(toolOption, thickness).strokeWidth
    ensures l.opacity == opacity / 100.0
    ensures l.tag == (if tool == "eraser" then "Eraser " else "Brush ") + NatToString(count + 1)
  {
    var b := BrushFor(toolOption, thickness);
    Line(id, (if tool == "eraser" then "Eraser " else "Brush ") + NatToString(count + 1),
         tool, toolOption, [pos.x, pos.y, pos.x, pos.y], color, b.strokeWidth, opacity / 100.0,
         b.tension, b.lineCap, if tool == "eraser" then "destination-out" else "source-over")
  }

  function DistSq(px: real, py: real, qx: real, qy: real): real
  {
    (px - qx) * (px - qx) + (py - qy) * (py - qy)
  }

  /** `updateLinePoints`: the point is appended only when it lies more than
      2 units from the last stored one. A line with fewer than two
      coordinates compares against `undefined`, so nothing is appended. */
  function UpdateLinePoints(l: Line, p: Point): (r: Line)
    ensures r.(points := l.points) == l
    ensures l.points <= r.points
    ensures |l.points| >= 2 && DistSq(p.x, p.y, l.points[|l.points| - 2], l.points[|l.points| - 1]) > 4.0 ==>
      r.points == l.points + [p.x, p.y]
    ensures !(|l.points| >= 2 && DistSq(p.x, p.y, l.points[|l.points| - 2], l.points[|l.points| - 1]) > 4.0) ==>
      r.points == l.points
  {
    var n := |l.points|;
    if n >= 2 && DistSq(p.x, p.y, l.points[n - 2], l.points[n - 1]) > 4.0 then
      l.(points := l.points + [p.x, p.y])
    else l
  }

  /** Every stored pair after the opening two lies more than 2 units from
      the pair before it. */
  predicate Spaced(ps: seq<real>)
  {
    |ps| >= 4 && |ps| % 2 == 0 &&
    forall k | 2 <= k < |ps| / 2 :: DistSq(ps[2 * k], ps[2 * k + 1], ps[2 * k - 2], ps[2 * k - 1]) > 4.0
  }

  /** A new line is spaced, and every update keeps it so: the stroke never
      stores two pairs within 2 units of each other beyond its start. */
  lemma SpacedInvariant(l: Line, p: Point, pos: Point, tool: string, toolOption: string, color: string,
                        thickness: real, opacity: real, id: string, count: nat)
    ensures Spaced(NewLine(pos, tool, toolOption, color, thickness, opacity, id, count).points)
    ensures Spaced(l.points) ==> Spaced(UpdateLinePoints(l, p).points)
  {
    if Spaced(l.points) {
      var ps := l.points;
      var qs := UpdateLinePoints(l, p).points;
      var n := |ps|;
      if qs != ps {
        assert qs == ps + [p.x, p.y];
        forall k | 2 <= k < |qs| / 2
          ensures DistSq(qs[2 * k], qs[2 * k + 1], qs[2 * k - 2], qs[2 * k - 1]) > 4.0
        {
          if k < n / 2 {
            assert qs[2 * k] == ps[2 * k] && qs[2 * k + 1] == ps[2 * k + 1];
            assert qs[2 * k - 2] == ps[2 * k - 2] && qs[2 * k - 1] == ps[2 * k - 1];
          } else {
            assert 2 * k == n;
            assert qs[n] == p.x && qs[n + 1] == p.y && qs[n - 2] == ps[n - 2] && qs[n - 1] == ps[n - 1];
          }
        }
      }
    }
  }

  /** Releasing the mouse where it went down adds nothing to a new line. */
  lemma UpdateAtStartAddsNothing(pos: Point, tool: string, toolOption: string, color: string,
                                 thickness: real, opacity: real, id: string, count: nat)
    ensures var l := NewLine(pos, tool, toolOption, color, thickness, opacity, id, count);
      UpdateLinePoints(l, pos) == l
  {
  }

  // ---------------------------------------------------------------- shapes

  /** What `createShape` makes of the tool: the geometry it adds. */
  datatype Form = Unshaped | Rect(cornerRadius: real) | Round(ellipse: bool) | Triangle(right: bool)

  datatype DrawnShape = DrawnShape(
    id: string,
    x: real,
    y: real,
    rotation: real,
    stroke: string,
    strokeWidth: real,
    fill: string,
    opacity: real,
    shadowColor: string,
    shadowBlur: real,
    shadowOpacity: real,
    form: Form,
    tag: Option<string>)

  /** The `type` a form carries; an unshaped element has none. */
  function TypeName(f: Form): Option<string>
  {
    match f
    case Unshaped => None
    case Rect(_) => Some("rect")
    case Round(e) => Some(if e then "ellipse" else "circle")
    case Triangle(r) => Some(if r then "right-triangle" else "triangle")
  }

  /** The word the tag of a form starts with. */
  function Label(f: Form): Option<string>
  {
    match f
    case Unshaped => None
    case Rect(_) => Some("Rectangle")
    case Round(e) => Some(if e then "Ellipse" else "Circle")
    case Triangle(_) => Some("Triangle")
  }

  function FormFor(tool: string, toolOption: string): Form
  {
    if tool == "square" then Rect(if toolOption == "rounded" then 12.0 else 0.0)
    else if tool == "circle" then Round(toolOption == "ellipse")
    else if tool == "triangle" then Triangle(toolOption == "right")
    else Unshaped
  }

  /** The shape `createShape` builds when `count` shapes exist. */
  function NewShape(pos: Point, tool: string, toolOption: string, color: string, opacity: real,
                    id: string, count: nat): DrawnShape
  {
    var filled := toolOption == "filled";
    var f := FormFor(tool, toolOption);
    var word := Label(f);
    DrawnShape(id, pos.x, pos.y, if f == Triangle(false) then 180.0 else 0.0, color, 3.0,
               if filled then color else "transparent", if filled then opacity / 100.0 else 1.0,
               color, if filled then 0.0 else 8.0, 0.3, f,
               if word.Some? then Some(word.value + " " + NatToString(count + 1)) else None)
  }

  /** The tool-to-type mapping of `createShape`: squares become `rect`
      (rounded exactly for the rounded option), circles `ellipse` or `circle`,
      triangles `right-triangle` (unrotated) or `triangle` (turned by 180),
      and the fill is the brush colour exactly for the filled option. */
  lemma ShapeMapping(pos: Point, tool: string, toolOption: string, color: string, opacity: real,
                     id: string, count: nat)
    ensures var s := NewShape(pos, tool, toolOption, color, opacity, id, count);
      (tool == "square" ==> (TypeName(s.form) == Some("rect") &&
         (s.form.cornerRadius == 12.0 <==> toolOption == "rounded") &&
         s.tag == Some("Rectangle " + NatToString(count + 1)))) &&
      (tool == "circle" ==> ((TypeName(s.form) == Some("ellipse") <==> toolOption == "ellipse") &&
         TypeName(s.form) in {Some("ellipse"), Some("circle")})) &&
      (tool == "triangle" ==> ((TypeName(s.form) == Some("right-triangle") <==> toolOption == "right") &&
         (s.rotation == 180.0 <==> toolOption != "right"))) &&
      (tool !in {"square", "circle", "triangle"} ==> TypeName(s.form).None? && s.tag.None?) &&
      (toolOption == "filled" ==> s.fill == color && s.opacity == opacity / 100.0) &&
      (toolOption != "filled" ==> s.fill == "transparent" && s.opacity == 1.0) &&
      s.x == pos.x && s.y == pos.y
  {
    assert "Rectangle" + " " == "Rectangle ";
  }

  // ---------------------------------------------------------------- the store

  /** The plant fields of a text element `createPlant` adds. */
  datatype PlantInfo = PlantInfo(plantId: string, kind: string, scientificName: Option<string>,
                                 plantingDate: string, spacing: Option<string>,
                                 spacingRadius: JsNumber, spacingMeters: JsNumber)

  /** An image or text element; a plant is a text element with plant fields. */
  datatype Item = Item(id: string, tag: string, text: string, x: real, y: real, fontSize: real,
                       fontFamily: string, fontStyle: Option<string>, fill: string,
                       draggable: bool, plant: Option<PlantInfo>)

  /** What `createPlant` reads of a catalogue plant. */
  datatype Plant = Plant(id: string, name: string, kind: string, scientificName: Option<string>,
                         spacing: Option<string>)

  const FontFamily: string := "Inter, sans-serif"

  /** The text element `createText` adds when `count` texts exist. */
  function NewText(pos: Point, text: string, fontSize: real, fontWeight: string, color: string,
                   id: string, count: nat): Item
  {
    Item(id, "Text " + NatToString(count + 1), text, pos.x, pos.y, fontSize, FontFamily,
         Some(fontWeight), color, true, None)
  }

  /** `spacingMeters * METER_TO_PIXELS / 2` */
  function HalfPixels(meters: JsNumber, meterToPixels: real): JsNumber
  {
    if meters.Finite? then Finite(meters.v * meterToPixels / 2.0) else NaN
  }

  /** The plant element `createPlant` adds: the METER_TO_PIXELS scale and the
      planting date are parameters. */
  function NewPlant(pos: Point, p: Plant, id: string, meterToPixels: real, date: string): Item
  {
    var meters := ParseSpacing(p.spacing);
    Item(id, p.name, ItemIcon(p.kind), pos.x, pos.y, 48.0, FontFamily, None, PlantColor(p.kind), false,
         Some(PlantInfo(p.id, p.kind, p.scientificName, date, p.spacing,
                        HalfPixels(meters, meterToPixels), meters)))
  }

  /** A text element is named after the number of texts before it, shows
      the given text at the given position and can be dragged. */
  lemma NewTextLaws(pos: Point, text: string, fontSize: real, fontWeight: string, color: string,
                    id: string, count: nat)
    ensures var t := NewText(pos, text, fontSize, fontWeight, color, id, count);
      t.tag == "Text " + NatToString(count + 1) && t.draggable && t.plant.None? &&
      t.text == text && t.x == pos.x && t.y == pos.y && t.fill == color
  {
  }

  /** A plant element carries its catalogue plant's name, icon, colour and
      id, cannot be dragged, and its spacing circle's radius is half its
      parsed spacing in pixels (one metre without a spacing text). */
  lemma NewPlantLaws(pos: Point, p: Plant, id: string, meterToPixels: real, date: string)
    ensures var e := NewPlant(pos, p, id, meterToPixels, date);
      e.tag == p.name && e.text == ItemIcon(p.kind) && e.fill == PlantColor(p.kind) && !e.draggable
    ensures var e := NewPlant(pos, p, id, meterToPixels, date);
      e.x == pos.x && e.y == pos.y && e.plant.Some? && e.plant.value.plantId == p.id
    ensures var e := NewPlant(pos, p, id, meterToPixels, date);
      e.plant.Some? && e.plant.value.spacingMeters == ParseSpacing(p.spacing) &&
      e.plant.value.spacingRadius == HalfPixels(e.plant.value.spacingMeters, meterToPixels)
    ensures var e := NewPlant(pos, p, id, meterToPixels, date);
      !Truthy(p.spacing) ==> e.plant.Some? && e.plant.value.spacingRadius == Finite(meterToPixels / 2.0)
  {
  }

  /** The spacing radius is a number exactly when the spacing is, and is
      then half of it in pixels; one metre gives half a metre's pixels. */
  lemma HalfPixelsLaws(meters: JsNumber, meterToPixels: real)
    ensures var r := HalfPixels(meters, meterToPixels);
      (meters.Finite? <==> r.Finite?) && (meters.Finite? ==> r.v * 2.0 == meters.v * meterToPixels) &&
      (meters == Finite(1.0) ==> r == Finite(meterToPixels / 2.0))
  {
  }

  /** What `getData` returns and `loadData` reads; a missing list is `None`. */
  datatype CanvasData = CanvasData(
    lines: Option<seq<Line>>, shapes: Option<seq<DrawnShape>>,
    images: Option<seq<Item>>, texts: Option<seq<Item>>)

  /** The four lists. */
  datatype Contents = Contents(lines: seq<Line>, shapes: seq<DrawnShape>, images: seq<Item>, texts: seq<Item>)

  function ListOr<T>(v: Option<seq<T>>): seq<T> { if v.Some? then v.value else [] }

  /** `loadData`: nothing without data, otherwise every list from the data
      or empty. */
  function Loaded(c: Contents, data: Option<CanvasData>): (r: Contents)
    ensures data.None? ==> r == c
    ensures data.Some? ==> (r.lines == ListOr(data.value.lines) && r.shapes == ListOr(data.value.shapes) &&
      r.images == ListOr(data.value.images) && r.texts == ListOr(data.value.texts))
  {
    if data.None? then c
    else Contents(ListOr(data.value.lines), ListOr(data.value.shapes), ListOr(data.value.images), ListOr(data.value.texts))
  }

  function AsData(c: Contents): CanvasData
  {
    CanvasData(Some(c.lines), Some(c.shapes), Some(c.images), Some(c.texts))
  }

  /** Loading what `getData` returned restores the same contents, and a
      load replaces everything regardless of what was there before. */
  lemma LoadRoundTrip(c: Contents, c2: Contents, data: CanvasData)
    ensures Loaded(c2, Some(AsData(c))) == c
    ensures Loaded(c, Some(data)) == Loaded(c2, Some(data))
  {
  }

  class CanvasStore {
    var lines: seq<Line>
    var shapes: seq<DrawnShape>
    var images: seq<Item>
    var texts: seq<Item>

    function State(): Contents
      reads this
    {
      Contents(lines, shapes, images, texts)
    }

    constructor ()
      ensures State() == Contents([], [], [], [])
    {
      lines, shapes, images, texts := [], [], [], [];
    }

    /** `createLine`: one line appended; the tag counts the lines already there. */
    method CreateLine(pos: Point, tool: string, toolOption: string, color: string, thickness: real,
                      opacity: real, id: string) returns (l: Line)
      modifies this
      ensures l == NewLine(pos, tool, toolOption, color, thickness, opacity, id, |old(lines)|)
      ensures State() == old(State()).(lines := old(lines) + [l])
    {
      l := NewLine(pos, tool, toolOption, color, thickness, opacity, id, |lines|);
      lines := lines + [l];
    }

    /** `createShape`: one shape appended; the tag counts the shapes already there. */
    method CreateShape(pos: Point, tool: string, toolOption: string, color: string, opacity: real,
                       id: string) returns (s: DrawnShape)
      modifies this
      ensures s == NewShape(pos, tool, toolOption, color, opacity, id, |old(shapes)|)
      ensures State() == old(State()).(shapes := old(shapes) + [s])
    {
      s := NewShape(pos, tool, toolOption, color, opacity, id, |shapes|);
      shapes := shapes + [s];
    }

    /** `createText`: one text element appended; the tag counts the texts already there. */
    method CreateText(pos: Point, text: string, fontSize: real, fontWeight: string, color: string,
                      id: string) returns (t: Item)
      modifies this
      ensures t == NewText(pos, text, fontSize, fontWeight, color, id, |old(texts)|)
      ensures State() == old(State()).(texts := old(texts) + [t])
    {
      t := NewText(pos, text, fontSize, fontWeight, color, id, |texts|);
      texts := texts + [t];
    }

    /** `createPlant`: one plant element appended to the texts. */
    method CreatePlant(pos: Point, p: Plant, id: string, meterToPixels: real, date: string)
      returns (e: Item)
      modifies this
      ensures e == NewPlant(pos, p, id, meterToPixels, date)
      ensures State() == old(State()).(texts := old(texts) + [e])
    {
      e := NewPlant(pos, p, id, meterToPixels, date);
      texts := texts + [e];
    }

    /** `clearAll` */
    method ClearAll()
      modifies this
      ensures State() == Contents([], [], [], [])
    {
      lines, shapes, images, texts := [], [], [], [];
    }

    /** `loadData` */
    method LoadData(data: Option<CanvasData>)
      modifies this
      ensures State() == Loaded(old(State()), data)
    {
      if data.Some? {
        lines := ListOr(data.value.lines);
        shapes := ListOr(data.value.shapes);
        images := ListOr(data.value.images);
        texts := ListOr(data.value.texts);
      }
    }

    /** `getData`: the four lists as they are; loading them back changes nothing. */
    method GetData() returns (d: CanvasData)
      ensures d.lines == Some(lines) && d.shapes == Some(shapes) && d.images == Some(images) && d.texts == Some(texts)
      ensures Loaded(Contents([], [], [], []), Some(d)) == State()
    {
      d := CanvasData(Some(lines), Some(shapes), Some(images), Some(texts));
    }
  }
}
