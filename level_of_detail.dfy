/** Level-of-detail selection and simplification: the effective scale of an
    element from the viewport scale and its distance to the viewport centre,
    the detail level that scale selects, and the simplification each level
    applies (stroke decimation, truncation of path data, fewer circle
    segments, flatter corners and shadows). */
module LevelOfDetail {
  import opened Common
  import opened CanvasGeometry

  datatype Lod = High | Medium | Low | Minimal

  /** Finer levels have higher ranks. */
  function Rank(l: Lod): nat
  {
    match l
    case High => 3
    case Medium => 2
    case Low => 1
    case Minimal => 0
  }

  datatype Thresholds = Thresholds(high: real, medium: real, low: real, minimal: real)
  datatype Factors = Factors(high: real, medium: real, low: real, minimal: real)
  datatype LodConfig = LodConfig(enabled: bool, thresholds: Thresholds, factors: Factors)

  const DefaultLod := LodConfig(true, Thresholds(1.0, 0.5, 0.25, 0.1), Factors(1.0, 0.7, 0.4, 0.2))

  predicate Ordered(t: Thresholds) { t.high >= t.medium >= t.low }

  predicate PositiveFactors(f: Factors)
  {
    f.high > 0.0 && f.medium > 0.0 && f.low > 0.0 && f.minimal > 0.0
  }

  function FactorFor(f: Factors, l: Lod): real
  {
    match l
    case High => f.high
    case Medium => f.medium
    case Low => f.low
    case Minimal => f.minimal
  }

  // -------------------------------------------------------------- selection

  /** The first threshold, finest first, that the effective scale reaches. */
  function LevelForScale(t: Thresholds, s: real): Lod
  {
    if s >= t.high then High
    else if s >= t.medium then Medium
    else if s >= t.low then Low
    else Minimal
  }

  /** With ordered thresholds, a level at least as fine as each level is chosen
      exactly when the scale reaches that level's threshold. */
  lemma LevelThresholds(t: Thresholds, s: real)
    requires Ordered(t)
    ensures Rank(LevelForScale(t, s)) >= 3 <==> s >= t.high
    ensures Rank(LevelForScale(t, s)) >= 2 <==> s >= t.medium
    ensures Rank(LevelForScale(t, s)) >= 1 <==> s >= t.low
  {
  }

  /** A larger effective scale never selects a coarser level. */
  lemma LevelMonotone(t: Thresholds, s1: real, s2: real)
    requires Ordered(t) && s1 <= s2
    ensures Rank(LevelForScale(t, s1)) <= Rank(LevelForScale(t, s2))
  {
    LevelThresholds(t, s1);
    LevelThresholds(t, s2);
  }

  /** The viewport scale damped by distance: full at the viewport centre,
      falling linearly to a floor of one tenth at the culling distance. */
  function EffectiveScale(scale: real, d: real, maxDistance: real): (r: real)
    requires maxDistance > 0.0
    ensures scale >= 0.0 && d >= 0.0 ==> 0.1 * scale <= r <= scale
  {
    scale * Max(0.1, 1.0 - d / maxDistance)
  }

  /** Further from the centre, the effective scale is never larger. */
  lemma EffectiveScaleMonotone(scale: real, d1: real, d2: real, maxDistance: real)
    requires maxDistance > 0.0 && scale >= 0.0 && d1 <= d2
    ensures EffectiveScale(scale, d1, maxDistance) >= EffectiveScale(scale, d2, maxDistance)
  {
    var m1, m2 := Max(0.1, 1.0 - d1 / maxDistance), Max(0.1, 1.0 - d2 / maxDistance);
    assert d2 / maxDistance - d1 / maxDistance == (d2 - d1) / maxDistance;
    assert (d2 - d1) / maxDistance >= 0.0;
    assert m1 >= m2;
    assert scale * m1 - scale * m2 == scale * (m1 - m2);
    assert scale * (m1 - m2) >= 0.0;
  }

  /** The detail level of an element at distance `d` from the viewport centre;
      with level of detail off every element is drawn at full detail. */
  function LodLevel(cfg: LodConfig, maxDistance: real, vp: Viewport, d: real): (l: Lod)
    requires maxDistance > 0.0
    ensures !cfg.enabled ==> l == High
  {
    if !cfg.enabled then High
    else LevelForScale(cfg.thresholds, EffectiveScale(vp.scale, d, maxDistance))
  }

  /** Moving an element closer to the viewport centre never coarsens its level. */
  lemma CloserIsNeverCoarser(cfg: LodConfig, maxDistance: real, vp: Viewport, d1: real, d2: real)
    requires maxDistance > 0.0 && Ordered(cfg.thresholds) && vp.scale >= 0.0 && d1 <= d2
    ensures Rank(LodLevel(cfg, maxDistance, vp, d1)) >= Rank(LodLevel(cfg, maxDistance, vp, d2))
  {
    if cfg.enabled {
      EffectiveScaleMonotone(vp.scale, d1, d2, maxDistance);
      LevelMonotone(cfg.thresholds, EffectiveScale(vp.scale, d2, maxDistance),
        EffectiveScale(vp.scale, d1, maxDistance));
    }
  }

  /** With the default thresholds: scale 1 at the centre is full detail, and
      an effective scale of 0.2 is minimal detail. */
  lemma DefaultLevels(vp: Viewport)
    requires vp.scale == 1.0
    ensures LodLevel(DefaultLod, 2000.0, vp, 0.0) == High
    ensures LodLevel(DefaultLod, 2000.0, vp.(scale := 0.2), 0.0) == Minimal
  {
  }

  // ---------------------------------------------------- stroke decimation

  /** Keep every `Stride`-th coordinate pair. */
  function Stride(factor: real): (step: nat)
    requires factor > 0.0
    ensures step >= 1
  {
    var k := (1.0 / factor).Floor;
    if k > 1 then k else 1
  }

  /** The pairs at flat indices `i`, `i + 2 step`, `i + 4 step`, ... */
  function Picks(pts: seq<real>, step: nat, i: nat): (r: seq<real>)
    requires step >= 1 && |pts| % 2 == 0 && i % 2 == 0
    ensures |r| % 2 == 0
    decreases |pts| - i
  {
    if i >= |pts| then [] else [pts[i], pts[i + 1]] + Picks(pts, step, i + 2 * step)
  }

  /** Decimation of a coordinate list: every `Stride`-th pair, then the last
      pair whenever the picked pairs are fewer than all of them, even when
      the last pick already was the last pair. */
  function Decimated(pts: seq<real>, factor: real): (r: seq<real>)
    requires factor > 0.0 && |pts| % 2 == 0
    ensures |r| % 2 == 0
  {
    if factor >= 1.0 then pts
    else
      var s := Picks(pts, Stride(factor), 0);
      if |s| < |pts| then s + [pts[|pts| - 2], pts[|pts| - 1]] else s
  }

  /** The decimation loop. */
  method SimplifyPoints(pts: seq<real>, factor: real) returns (r: seq<real>)
    requires factor > 0.0 && |pts| % 2 == 0
    ensures r == Decimated(pts, factor)
  {
    if factor >= 1.0 {
      return pts;
    }
    var step := Stride(factor);
    var simplified: seq<real> := [];
    var i := 0;
    while i < |pts|
      invariant i % 2 == 0
      invariant simplified + Picks(pts, step, i) == Picks(pts, step, 0)
      decreases |pts| - i
    {
      PicksStep(pts, step, i);
      AppendAssoc(simplified, [pts[i], pts[i + 1]], Picks(pts, step, i + 2 * step));
      simplified := simplified + [pts[i], pts[i + 1]];
      i := i + 2 * step;
    }
    assert simplified + [] == simplified;
    if |simplified| < |pts| {
      simplified := simplified + [pts[|pts| - 2], pts[|pts| - 1]];
    }
    r := simplified;
  }

  lemma PicksStep(pts: seq<real>, step: nat, i: nat)
    requires step >= 1 && |pts| % 2 == 0 && i % 2 == 0 && i < |pts|
    ensures i + 1 < |pts|
    ensures Picks(pts, step, i) == [pts[i], pts[i + 1]] + Picks(pts, step, i + 2 * step)
  {
    EvenGap(i, |pts|);
  }

  /** Pair `k` of the picks is the input pair `k` strides further on. */
  lemma {:induction false} PicksAreStrided(pts: seq<real>, step: nat, i: nat, k: nat)
    requires step >= 1 && |pts| % 2 == 0 && i % 2 == 0
    requires 2 * k + 1 < |Picks(pts, step, i)|
    ensures i + 2 * k * step + 1 < |pts|
    ensures PointX(Picks(pts, step, i), k) == pts[i + 2 * k * step]
    ensures PointY(Picks(pts, step, i), k) == pts[i + 2 * k * step + 1]
    decreases k
  {
    var j := i + 2 * step;
    var head := [pts[i], pts[i + 1]];
    var rest := Picks(pts, step, j);
    assert Picks(pts, step, i) == head + rest;
    if k > 0 {
      PicksAreStrided(pts, step, j, k - 1);
      StrideStep(i, step, k);
    }
  }

  lemma StrideStep(i: nat, step: nat, k: nat)
    requires k > 0
    ensures (i + 2 * step) + 2 * (k - 1) * step == i + 2 * k * step
  {
  }

  /** The picks never outnumber the pairs from `i` on, and they only match
      them when every pair is picked or only one pair is left. */
  lemma {:induction false} PicksLength(pts: seq<real>, step: nat, i: nat)
    requires step >= 1 && |pts| % 2 == 0 && i % 2 == 0 && i <= |pts|
    ensures |Picks(pts, step, i)| <= |pts| - i
    ensures |Picks(pts, step, i)| == |pts| - i ==> Picks(pts, step, i) == pts[i..]
    decreases |pts| - i
  {
    if i < |pts| {
      var j := i + 2 * step;
      var head := [pts[i], pts[i + 1]];
      var rest := Picks(pts, step, j);
      assert Picks(pts, step, i) == head + rest;
      if j < |pts| {
        PicksLength(pts, step, j);
        if |head + rest| == |pts| - i {
          assert rest == pts[j..];
          assert pts[i..] == head + pts[j..];
        }
      } else {
        assert rest == [];
        if |head| == |pts| - i {
          assert pts[i..] == head;
        }
      }
    }
  }

  /** Decimation never lengthens a stroke and keeps its first and last points. */
  lemma DecimatedKeepsEndpoints(pts: seq<real>, factor: real)
    requires factor > 0.0 && |pts| % 2 == 0 && |pts| >= 2
    ensures var r := Decimated(pts, factor);
      2 <= |r| <= |pts| && |r| % 2 == 0 &&
      r[..2] == pts[..2] && r[|r| - 2..] == pts[|pts| - 2..]
  {
    if factor < 1.0 {
      var step := Stride(factor);
      var s := Picks(pts, step, 0);
      var last := [pts[|pts| - 2], pts[|pts| - 1]];
      PicksLength(pts, step, 0);
      assert s == [pts[0], pts[1]] + Picks(pts, step, 2 * step);
      assert s[..2] == pts[..2];
      if |s| < |pts| {
        EvenGap(|s|, |pts|);
        var r := s + last;
        assert Decimated(pts, factor) == r;
        assert r[..2] == s[..2];
        assert r[|r| - 2..] == last;
      } else {
        assert pts[0..] == pts;
        assert Decimated(pts, factor) == pts;
      }
    }
  }

  lemma EvenGap(a: int, b: int)
    requires a % 2 == 0 && b % 2 == 0 && a < b
    ensures a + 2 <= b
  {
  }

  /** The retained pairs, apart from a final appended one, are the input pairs
      at multiples of the stride. */
  lemma DecimatedIsStrided(pts: seq<real>, factor: real, k: nat)
    requires 0.0 < factor < 1.0 && |pts| % 2 == 0
    requires 2 * k + 1 < |Picks(pts, Stride(factor), 0)|
    ensures var r := Decimated(pts, factor); var step := Stride(factor);
      2 * k * step + 1 < |pts| && PointX(r, k) == pts[2 * k * step] && PointY(r, k) == pts[2 * k * step + 1]
  {
    var step := Stride(factor);
    var s := Picks(pts, step, 0);
    PicksAreStrided(pts, step, 0, k);
    var r := Decimated(pts, factor);
    assert r[..|s|] == s;
    assert PointX(r, k) == PointX(s, k) && PointY(r, k) == PointY(s, k);
  }

  /** A twenty-point stroke at the default minimal factor keeps five points:
      pairs 0, 5, 10 and 15 and the last one. */
  lemma TwentyPointsAtMinimal(pts: seq<real>)
    requires |pts| == 40
    ensures Decimated(pts, 0.2) == pts[0..2] + pts[10..12] + pts[20..22] + pts[30..32] + pts[38..40]
  {
    assert Stride(0.2) == 5;
    assert Picks(pts, 5, 40) == [];
    assert Picks(pts, 5, 30) == pts[30..32];
    assert Picks(pts, 5, 20) == pts[20..22] + pts[30..32];
    assert Picks(pts, 5, 10) == pts[10..12] + pts[20..22] + pts[30..32];
  }

  // ------------------------------------------------------ path truncation

  predicate IsCommand(c: char) { c == 'M' || c == 'L' || c == 'C' || c == 'Z' }

  /** The index of the first path command letter at or after `i`, or the
      length of the text when there is none. */
  function NextCommand(s: string, i: nat): (j: nat)
    requires i <= |s|
    ensures i <= j <= |s|
    ensures j < |s| ==> IsCommand(s[j])
    decreases |s| - i
  {
    if i == |s| || IsCommand(s[i]) then i else NextCommand(s, i + 1)
  }

  /** Every character passed over is an argument character. */
  lemma {:induction false} NextCommandSkips(s: string, i: nat)
    requires i <= |s|
    ensures forall k :: i <= k < NextCommand(s, i) ==> !IsCommand(s[k])
    decreases |s| - i
  {
    if i < |s| && !IsCommand(s[i]) {
      NextCommandSkips(s, i + 1);
    }
  }

  /** The search stops at the first command letter. */
  lemma {:induction false} NextCommandAt(s: string, i: nat, e: nat)
    requires i <= e <= |s|
    requires forall k :: i <= k < e ==> !IsCommand(s[k])
    requires e < |s| ==> IsCommand(s[e])
    ensures NextCommand(s, i) == e
    decreases e - i
  {
    if i < e {
      NextCommandAt(s, i + 1, e);
    }
  }

  /** A path command letter followed by its argument text. */
  predicate IsGroup(g: string)
  {
    |g| >= 1 && IsCommand(g[0]) && forall i :: 1 <= i < |g| ==> !IsCommand(g[i])
  }

  /** The matches of `[MLCZ][^MLCZ]*` from index `i` on. */
  function GroupsFrom(s: string, i: nat): seq<string>
    requires i <= |s|
    decreases |s| - i
  {
    if i == |s| then []
    else
      var j := NextCommand(s, i + 1);
      [s[i..j]] + GroupsFrom(s, j)
  }

  /** The successive matches of the pattern `[MLCZ][^MLCZ]*` in `s`. */
  function Groups(s: string): seq<string>
  {
    GroupsFrom(s, NextCommand(s, 0))
  }

  function Concat(gs: seq<string>): string
  {
    if gs == [] then [] else gs[0] + Concat(gs[1..])
  }

  lemma ConcatCons(g: string, gs: seq<string>)
    ensures Concat([g] + gs) == g + Concat(gs)
  {
    assert ([g] + gs)[1..] == gs;
  }

  lemma {:induction false} ConcatAppend(a: seq<string>, b: seq<string>)
    ensures Concat(a + b) == Concat(a) + Concat(b)
  {
    if a != [] {
      ConcatAppend(a[1..], b);
      assert (a + b)[1..] == a[1..] + b;
      AppendAssoc(a[0], Concat(a[1..]), Concat(b));
    } else {
      assert a + b == b;
    }
  }

  lemma {:induction false} GroupsFromAreGroups(s: string, i: nat)
    requires i <= |s| && (i < |s| ==> IsCommand(s[i]))
    ensures forall k :: 0 <= k < |GroupsFrom(s, i)| ==> IsGroup(GroupsFrom(s, i)[k])
    decreases |s| - i
  {
    if i < |s| {
      var j := NextCommand(s, i + 1);
      var g := s[i..j];
      var rest := GroupsFrom(s, j);
      assert GroupsFrom(s, i) == [g] + rest;
      GroupsFromAreGroups(s, j);
      NextCommandSkips(s, i + 1);
      assert IsGroup(g) by {
        forall m | 1 <= m < |g| ensures !IsCommand(g[m]) {
          assert g[m] == s[i + m];
        }
      }
      forall k | 0 <= k < |GroupsFrom(s, i)| ensures IsGroup(GroupsFrom(s, i)[k]) {
        if k > 0 {
          assert GroupsFrom(s, i)[k] == rest[k - 1];
        }
      }
    }
  }

  /** Every match is a command letter followed by its arguments. */
  lemma GroupsAreGroups(s: string)
    ensures forall k :: 0 <= k < |Groups(s)| ==> IsGroup(Groups(s)[k])
  {
    GroupsFromAreGroups(s, NextCommand(s, 0));
  }

  lemma {:induction false} GroupsFromTile(s: string, i: nat)
    requires i <= |s|
    ensures Concat(GroupsFrom(s, i)) == s[i..]
    decreases |s| - i
  {
    if i < |s| {
      var j := NextCommand(s, i + 1);
      GroupsFromTile(s, j);
      ConcatCons(s[i..j], GroupsFrom(s, j));
      assert s[i..] == s[i..j] + s[j..];
    }
  }

  /** The matches tile the path text from its first command letter on. */
  lemma GroupsTile(s: string)
    ensures Concat(Groups(s)) == s[NextCommand(s, 0)..]
  {
    GroupsFromTile(s, NextCommand(s, 0));
  }

  /** The text of a list of groups starts with a command letter, if any. */
  lemma ConcatStartsWithCommand(gs: seq<string>)
    requires forall k :: 0 <= k < |gs| ==> IsGroup(gs[k])
    ensures Concat(gs) != [] ==> IsCommand(Concat(gs)[0])
  {
    if gs != [] {
      assert IsGroup(gs[0]);
      assert Concat(gs)[0] == gs[0][0];
    }
  }

  /** Splitting groups placed behind any text, from the end of that text on,
      recovers the groups. */
  lemma {:induction false} GroupsFromOfConcat(p: string, gs: seq<string>)
    requires forall k :: 0 <= k < |gs| ==> IsGroup(gs[k])
    ensures GroupsFrom(p + Concat(gs), |p|) == gs
    decreases |gs|
  {
    var s := p + Concat(gs);
    if gs == [] {
      assert s == p;
    } else {
      var g := gs[0];
      var q := p + g;
      assert IsGroup(g);
      assert forall k :: 0 <= k < |gs[1..]| ==> IsGroup(gs[1..][k]) by {
        forall k | 0 <= k < |gs[1..]| ensures IsGroup(gs[1..][k]) {
          assert gs[1..][k] == gs[k + 1];
        }
      }
      ConcatStartsWithCommand(gs[1..]);
      assert s == q + Concat(gs[1..]);
      forall k | |p| + 1 <= k < |q| ensures !IsCommand(s[k]) {
        assert s[k] == g[k - |p|];
      }
      NextCommandAt(s, |p| + 1, |q|);
      assert s[|p|..|q|] == g;
      assert GroupsFrom(s, |p|) == [g] + GroupsFrom(s, |q|);
      GroupsFromOfConcat(q, gs[1..]);
      assert gs == [g] + gs[1..];
    }
  }

  /** Splitting the concatenation of groups recovers the groups. */
  lemma GroupsOfConcat(gs: seq<string>)
    requires forall k :: 0 <= k < |gs| ==> IsGroup(gs[k])
    ensures Groups(Concat(gs)) == gs
  {
    var s := Concat(gs);
    ConcatStartsWithCommand(gs);
    NextCommandAt(s, 0, 0);
    GroupsFromOfConcat([], gs);
    assert [] + s == s;
  }

  /** The groups kept when a path is truncated. */
  function KeptGroups(n: nat, factor: real): (k: nat)
    requires factor < 1.0 && n > 10
    ensures 3 <= k < n
  {
    var keep := (n as real * factor).Floor;
    assert n as real - n as real * factor == n as real * (1.0 - factor);
    assert n as real * (1.0 - factor) > 0.0;
    if keep > 3 then keep else 3
  }

  /** Path simplification: with a factor below one and more than ten command
      groups, keep the first `max(3, floor(groups * factor))` groups and close
      the path; otherwise leave the data as it is. */
  function SimplifyPath(data: string, factor: real): string
  {
    if factor >= 1.0 then data
    else
      var gs := Groups(data);
      if |gs| > 10 then Concat(gs[..KeptGroups(|gs|, factor)]) + " Z" else data
  }

  /** The first `k` groups spell a strict prefix of the whole text. */
  lemma ConcatPrefix(gs: seq<string>, k: nat)
    requires k < |gs| && gs[k] != []
    ensures |Concat(gs[..k])| < |Concat(gs)|
    ensures Concat(gs)[..|Concat(gs[..k])|] == Concat(gs[..k])
  {
    assert gs == gs[..k] + gs[k..];
    ConcatAppend(gs[..k], gs[k..]);
    assert gs[k..] == [gs[k]] + gs[k + 1..];
    ConcatAppend([gs[k]], gs[k + 1..]);
  }

  /** The text of the first `k` groups of a path is a strict prefix of its
      command text. */
  lemma TruncatedIsPrefix(data: string, k: nat)
    requires k < |Groups(data)|
    ensures var pre := Concat(Groups(data)[..k]); var body := data[NextCommand(data, 0)..];
      |pre| < |body| && body[..|pre|] == pre
  {
    GroupsTile(data);
    GroupsAreGroups(data);
    ConcatPrefix(Groups(data), k);
  }

  /** The text of the first `k` groups splits back into those groups. */
  lemma TruncatedRegroups(data: string, k: nat)
    requires k <= |Groups(data)|
    ensures Groups(Concat(Groups(data)[..k])) == Groups(data)[..k]
  {
    var gs := Groups(data);
    GroupsAreGroups(data);
    assert forall i :: 0 <= i < k ==> gs[..k][i] == gs[i];
    GroupsOfConcat(gs[..k]);
  }

  /** A simplified path is a strict prefix of the command text followed by a
      closing command, and that prefix splits into exactly the kept groups. */
  lemma SimplifiedPathIsPrefix(data: string, factor: real)
    requires factor < 1.0 && |Groups(data)| > 10
    ensures var r := SimplifyPath(data, factor); var body := data[NextCommand(data, 0)..];
      var kept := KeptGroups(|Groups(data)|, factor);
      |r| >= 2 && r[|r| - 2..] == " Z" && |r| - 2 < |body| &&
      r[..|r| - 2] == body[..|r| - 2] && Groups(r[..|r| - 2]) == Groups(data)[..kept]
  {
    var kept := KeptGroups(|Groups(data)|, factor);
    var pre := Concat(Groups(data)[..kept]);
    var r := SimplifyPath(data, factor);
    assert r == pre + " Z";
    TruncatedIsPrefix(data, kept);
    TruncatedRegroups(data, kept);
    ClosedPrefix(r, pre, data[NextCommand(data, 0)..]);
  }

  lemma ClosedPrefix(r: string, pre: string, body: string)
    requires r == pre + " Z" && |pre| < |body| && body[..|pre|] == pre
    ensures |r| >= 2 && r[|r| - 2..] == " Z" && |r| - 2 < |body|
    ensures r[..|r| - 2] == pre && r[..|r| - 2] == body[..|r| - 2]
  {
  }

  // ------------------------------------------------- element simplification

  predicate SimplifiesStroke(e: Element)
  {
    e.kind == Line && e.points.Some? && |e.points.value| > 4
  }

  predicate SimplifiesPath(e: Element)
  {
    e.kind == Path && Truthy(e.data)
  }

  /** Whether simplifying `e` at level `l` counts as a simplification in the
      metrics: only decimated strokes and truncated paths do. */
  predicate CountsAsSimplification(cfg: LodConfig, e: Element, l: Lod)
  {
    cfg.enabled && l != High && (SimplifiesStroke(e) || SimplifiesPath(e))
  }

  /** Only the detail fields of an element are ever simplified. */
  predicate SameExceptDetail(r: Element, e: Element)
  {
    r == e.(points := r.points, data := r.data, segments := r.segments,
             cornerRadius := r.cornerRadius, shadowBlur := r.shadowBlur)
  }

  /** A detail measure scaled by a simplification factor. */
  function Scale(v: real, f: real): real { v * f }

  /** The per-kind simplification at factor `f`. */
  function Reshaped(e: Element, l: Lod, f: real): (r: Element)
    requires WellFormed(e) && f > 0.0
    ensures WellFormed(r) && SameExceptDetail(r, e) && r.shadowBlur == e.shadowBlur
  {
    if SimplifiesStroke(e) then e.(points := Some(Decimated(e.points.value, f)))
    else if SimplifiesPath(e) then e.(data := Some(SimplifyPath(e.data.value, f)))
    else if e.kind == Circle && l == Minimal then e.(segments := Some(8))
    else if e.kind == Circle && l == Low then e.(segments := Some(16))
    else if e.kind == Rect && l == Minimal && e.cornerRadius.Some? && e.cornerRadius.value > 0.0 then
      e.(cornerRadius := Some(Max(1.0, Scale(e.cornerRadius.value, f))))
    else e
  }

  /** The element drawn at level `l`: unchanged at full detail or with level
      of detail off, otherwise changed in its detail fields only. */
  function Simplify(cfg: LodConfig, e: Element, l: Lod): (r: Element)
    requires WellFormed(e) && PositiveFactors(cfg.factors)
    ensures WellFormed(r) && SameExceptDetail(r, e)
    ensures !cfg.enabled || l == High ==> r == e
  {
    if !cfg.enabled || l == High then e
    else
      var f := FactorFor(cfg.factors, l);
      var shaped := Reshaped(e, l, f);
      if TruthyNum(e.shadowBlur) then shaped.(shadowBlur := Some(Scale(e.shadowBlur.value, f))) else shaped
  }

  /** What each detail field may become: strokes and paths change only when
      the change is counted, circles drop to 8 or 16 segments, rounded
      rectangles keep a corner radius of at least 1, and shadows are scaled
      by the level's factor. */
  lemma SimplifyChanges(cfg: LodConfig, e: Element, l: Lod)
    requires WellFormed(e) && PositiveFactors(cfg.factors)
    ensures var r := Simplify(cfg, e, l);
      (r.points != e.points ==> CountsAsSimplification(cfg, e, l) && SimplifiesStroke(e)) &&
      (r.data != e.data ==> CountsAsSimplification(cfg, e, l) && SimplifiesPath(e)) &&
      (r.segments != e.segments ==>
        e.kind == Circle && (l == Minimal || l == Low) && r.segments == Some(if l == Minimal then 8 else 16)) &&
      (r.cornerRadius != e.cornerRadius ==>
        e.kind == Rect && l == Minimal && r.cornerRadius.Some? && r.cornerRadius.value >= 1.0) &&
      (r.shadowBlur != e.shadowBlur ==>
        TruthyNum(e.shadowBlur) && r.shadowBlur.Some? &&
        r.shadowBlur.value == e.shadowBlur.value * FactorFor(cfg.factors, l))
  {
    if cfg.enabled && l != High {
      var f := FactorFor(cfg.factors, l);
      var shaped := Reshaped(e, l, f);
      assert shaped.shadowBlur == e.shadowBlur;
      if TruthyNum(e.shadowBlur) {
        var r := Simplify(cfg, e, l);
        assert r.shadowBlur.Some? && r.shadowBlur.value == e.shadowBlur.value * f;
      } else {
        assert Simplify(cfg, e, l).shadowBlur == e.shadowBlur;
      }
    }
  }

  /** A simplified stroke keeps its endpoints and never gains points. */
  lemma SimplifiedStrokeKeepsEndpoints(cfg: LodConfig, e: Element, l: Lod)
    requires WellFormed(e) && PositiveFactors(cfg.factors) && e.points.Some? && |e.points.value| >= 2
    ensures var r := Simplify(cfg, e, l); var p := e.points.value;
      r.points.Some? && 2 <= |r.points.value| <= |p| &&
      r.points.value[..2] == p[..2] && r.points.value[|r.points.value| - 2..] == p[|p| - 2..]
  {
    if cfg.enabled && l != High && SimplifiesStroke(e) {
      DecimatedKeepsEndpoints(e.points.value, FactorFor(cfg.factors, l));
    }
  }
}
