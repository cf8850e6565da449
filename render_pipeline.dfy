/** The pure side of the render optimiser: the culled and simplified render
    list, object-pool operations, adaptive LOD thresholds, frame statistics,
    memory trimming, performance presets and viewport merging, each as a
    function over values with the properties the optimiser relies on. */
module RenderPipeline {
  import opened Common
  import opened CanvasGeometry
  import opened LevelOfDetail
  import opened Batching

  // ------------------------------------------------------------ render list

  /** The element survives the frustum test and, when distance culling is
      on, is no further than the culling distance from the viewport centre. */
  predicate Kept(cull: CullingConfig, e: Element, vp: Viewport, d: real)
    requires WellFormed(e)
  {
    IsInViewport(cull, e, vp) && !(cull.enableDistanceCulling && d > cull.maxCullingDistance)
  }

  /** The inputs of a render pass: every element well formed and paired with
      its distance to the viewport centre. */
  predicate Measured(es: seq<Element>, vp: Viewport, ds: seq<real>)
  {
    |ds| == |es| && forall i :: 0 <= i < |es| ==> WellFormed(es[i]) && IsDistance(ds[i], es[i], vp)
  }

  predicate PipelineConfig(lod: LodConfig, cull: CullingConfig)
  {
    PositiveFactors(lod.factors) && cull.maxCullingDistance > 0.0
  }

  /** The render-list entry of a kept element. */
  function Entry(lod: LodConfig, cull: CullingConfig, e: Element, vp: Viewport, d: real): Optimized
    requires WellFormed(e) && PipelineConfig(lod, cull)
  {
    var l := LodLevel(lod, cull.maxCullingDistance, vp, d);
    Optimized(Simplify(lod, e, l), l, d)
  }

  /** The render list: the kept elements, in order, simplified and annotated. */
  function RenderList(lod: LodConfig, cull: CullingConfig, es: seq<Element>, vp: Viewport, ds: seq<real>)
    : (r: seq<Optimized>)
    requires Measured(es, vp, ds) && PipelineConfig(lod, cull)
    ensures |r| <= |es|
  {
    if es == [] then []
    else
      var n := |es| - 1;
      var front := RenderList(lod, cull, es[..n], vp, ds[..n]);
      if Kept(cull, es[n], vp, ds[n]) then front + [Entry(lod, cull, es[n], vp, ds[n])] else front
  }

  /** The number of elements the pass culls. */
  function CulledCount(cull: CullingConfig, es: seq<Element>, vp: Viewport, ds: seq<real>): nat
    requires Measured(es, vp, ds)
  {
    if es == [] then 0
    else
      var n := |es| - 1;
      CulledCount(cull, es[..n], vp, ds[..n]) + if Kept(cull, es[n], vp, ds[n]) then 0 else 1
  }

  /** The number of kept elements whose simplification is counted. */
  function SimplifiedCount(lod: LodConfig, cull: CullingConfig, es: seq<Element>, vp: Viewport, ds: seq<real>): nat
    requires Measured(es, vp, ds) && PipelineConfig(lod, cull)
  {
    if es == [] then 0
    else
      var n := |es| - 1;
      SimplifiedCount(lod, cull, es[..n], vp, ds[..n]) +
        if Kept(cull, es[n], vp, ds[n]) &&
           CountsAsSimplification(lod, es[n], LodLevel(lod, cull.maxCullingDistance, vp, ds[n]))
        then 1 else 0
  }

  /** The indices of the kept elements, ascending. */
  function KeptIndices(cull: CullingConfig, es: seq<Element>, vp: Viewport, ds: seq<real>): (ix: seq<nat>)
    requires Measured(es, vp, ds)
    ensures forall k :: 0 <= k < |ix| ==> ix[k] < |es|
  {
    if es == [] then []
    else
      var n := |es| - 1;
      var front := KeptIndices(cull, es[..n], vp, ds[..n]);
      if Kept(cull, es[n], vp, ds[n]) then front + [n] else front
  }

  lemma MeasuredPrefix(es: seq<Element>, vp: Viewport, ds: seq<real>, n: nat)
    requires Measured(es, vp, ds) && n <= |es|
    ensures Measured(es[..n], vp, ds[..n])
  {
  }

  /** Every element is either kept or counted as culled. */
  lemma {:induction false} RenderListAccounting(lod: LodConfig, cull: CullingConfig, es: seq<Element>, vp: Viewport, ds: seq<real>)
    requires Measured(es, vp, ds) && PipelineConfig(lod, cull)
    ensures |RenderList(lod, cull, es, vp, ds)| + CulledCount(cull, es, vp, ds) == |es|
  {
    if es != [] {
      var n := |es| - 1;
      MeasuredPrefix(es, vp, ds, n);
      RenderListAccounting(lod, cull, es[..n], vp, ds[..n]);
    }
  }

  /** The kept indices are ascending, and every kept element's index is
      among them. */
  lemma {:induction false} KeptIndicesComplete(cull: CullingConfig, es: seq<Element>, vp: Viewport, ds: seq<real>)
    requires Measured(es, vp, ds)
    ensures var ix := KeptIndices(cull, es, vp, ds);
      (forall k, m :: 0 <= k < m < |ix| ==> ix[k] < ix[m]) &&
      (forall i :: 0 <= i < |es| && Kept(cull, es[i], vp, ds[i]) ==> i in ix)
  {
    if es != [] {
      var n := |es| - 1;
      MeasuredPrefix(es, vp, ds, n);
      KeptIndicesComplete(cull, es[..n], vp, ds[..n]);
      var ix0 := KeptIndices(cull, es[..n], vp, ds[..n]);
      forall i | 0 <= i < n && Kept(cull, es[i], vp, ds[i]) ensures i in ix0 {
        assert es[..n][i] == es[i] && ds[..n][i] == ds[i];
      }
    }
  }

  /** Entry `k` of the render list is the entry of the element at the `k`-th
      kept index, and that element is kept. */
  lemma {:induction false} RenderListEntries(lod: LodConfig, cull: CullingConfig, es: seq<Element>, vp: Viewport, ds: seq<real>)
    requires Measured(es, vp, ds) && PipelineConfig(lod, cull)
    ensures var r, ix := RenderList(lod, cull, es, vp, ds), KeptIndices(cull, es, vp, ds);
      |ix| == |r| &&
      forall k :: 0 <= k < |ix| ==>
        Kept(cull, es[ix[k]], vp, ds[ix[k]]) && r[k] == Entry(lod, cull, es[ix[k]], vp, ds[ix[k]])
  {
    if es != [] {
      var n := |es| - 1;
      MeasuredPrefix(es, vp, ds, n);
      RenderListEntries(lod, cull, es[..n], vp, ds[..n]);
      var ix0 := KeptIndices(cull, es[..n], vp, ds[..n]);
      assert forall k :: 0 <= k < |ix0| ==> es[..n][ix0[k]] == es[ix0[k]] && ds[..n][ix0[k]] == ds[ix0[k]];
    }
  }

  /** The render list is the kept elements, in their original order, each
      simplified at its level and annotated with level and distance; no other
      element appears. */
  lemma RenderListIsKeptInOrder(lod: LodConfig, cull: CullingConfig, es: seq<Element>, vp: Viewport, ds: seq<real>)
    requires Measured(es, vp, ds) && PipelineConfig(lod, cull)
    ensures var r, ix := RenderList(lod, cull, es, vp, ds), KeptIndices(cull, es, vp, ds);
      |ix| == |r| &&
      (forall k, m :: 0 <= k < m < |ix| ==> ix[k] < ix[m]) &&
      (forall k :: 0 <= k < |ix| ==>
        Kept(cull, es[ix[k]], vp, ds[ix[k]]) && r[k] == Entry(lod, cull, es[ix[k]], vp, ds[ix[k]])) &&
      (forall i :: 0 <= i < |es| && Kept(cull, es[i], vp, ds[i]) ==> i in ix)
  {
    KeptIndicesComplete(cull, es, vp, ds);
    RenderListEntries(lod, cull, es, vp, ds);
  }

  /** An element further than the culling distance, compared through the
      squared distance, never reaches the render list. */
  lemma FarElementIsCulled(cull: CullingConfig, e: Element, vp: Viewport, d: real)
    requires WellFormed(e) && IsDistance(d, e, vp) && cull.enableDistanceCulling
    requires cull.maxCullingDistance >= 0.0
    requires CenterDistSq(e, vp) > cull.maxCullingDistance * cull.maxCullingDistance
    ensures !Kept(cull, e, vp, d)
  {
    DistanceExceeds(d, e, vp, cull.maxCullingDistance);
  }

  /** The detail level of every entry of a render list. */
  function LevelsOf(r: seq<Optimized>): seq<Lod>
  {
    seq(|r|, k requires 0 <= k < |r| => r[k].lodLevel)
  }

  /** With level of detail off every entry of the render list is at full detail. */
  lemma {:induction false} LodOffIsFullDetail(lod: LodConfig, cull: CullingConfig, es: seq<Element>, vp: Viewport, ds: seq<real>)
    requires Measured(es, vp, ds) && PipelineConfig(lod, cull) && !lod.enabled
    ensures var r, ix := RenderList(lod, cull, es, vp, ds), KeptIndices(cull, es, vp, ds);
      |ix| == |r| && forall k :: 0 <= k < |r| ==> r[k] == Optimized(es[ix[k]], High, ds[ix[k]])
  {
    RenderListIsKeptInOrder(lod, cull, es, vp, ds);
  }

  // ------------------------------------------------------------ object pools

  /** A pooled object. `reset` is the object's own method, called when the
      object has one; the model records that it was called. */
  datatype PoolObject = PoolObject(tag: string, hasReset: bool, wasReset: bool)

  function Reset(o: PoolObject): PoolObject
  {
    if o.hasReset then o.(wasReset := true) else o
  }

  type Pools = map<string, seq<PoolObject>>

  const PoolKinds := ["nodes", "lines", "shapes", "images", "texts"]

  predicate PoolsBounded(p: Pools, capacity: nat)
  {
    forall t | t in p :: |p[t]| <= capacity
  }

  /** `pool.pop()` on the pool of kind `t`: the most recently returned object,
      or nothing for an empty or unknown pool. */
  function TakeFrom(p: Pools, t: string): (r: (Option<PoolObject>, Pools))
    ensures r.0.Some? <==> t in p && |p[t]| > 0
    ensures r.0.Some? ==> r.1 == p[t := p[t][..|p[t]| - 1]] && r.0.value == p[t][|p[t]| - 1]
    ensures r.0.None? ==> r.1 == p
  {
    if t in p && |p[t]| > 0 then (Some(p[t][|p[t]| - 1]), p[t := p[t][..|p[t]| - 1]]) else (None, p)
  }

  /** Returning an object: reset and pushed onto a known pool below capacity,
      otherwise dropped. */
  function PutInto(p: Pools, t: string, o: PoolObject, capacity: nat): (r: Pools)
    ensures r.Keys == p.Keys
    ensures t in p && |p[t]| < capacity ==> r == p[t := p[t] + [Reset(o)]]
    ensures !(t in p && |p[t]| < capacity) ==> r == p
  {
    if t in p && |p[t]| < capacity then p[t := p[t] + [Reset(o)]] else p
  }

  /** Pools never grow beyond their capacity. */
  lemma PutKeepsBound(p: Pools, t: string, o: PoolObject, capacity: nat)
    requires PoolsBounded(p, capacity)
    ensures PoolsBounded(PutInto(p, t, o, capacity), capacity)
    ensures PoolsBounded(TakeFrom(p, t).1, capacity)
  {
  }

  /** The pools are last in, first out: an object returned to a pool with
      room is the next one taken, reset, and the pools are as before. */
  lemma PoolRoundTrip(p: Pools, t: string, o: PoolObject, capacity: nat)
    requires t in p && |p[t]| < capacity
    ensures TakeFrom(PutInto(p, t, o, capacity), t) == (Some(Reset(o)), p)
  {
    var q := PutInto(p, t, o, capacity);
    assert q[t][..|q[t]| - 1] == p[t];
    assert q[t := q[t][..|q[t]| - 1]] == p;
  }

  /** Taking from a full pool and giving the object back restores the pools,
      apart from the reset. */
  lemma PoolTakeThenPut(p: Pools, t: string, capacity: nat)
    requires t in p && 0 < |p[t]| <= capacity
    ensures var (o, q) := TakeFrom(p, t);
      o.Some? && PutInto(q, t, o.value, capacity) == p[t := p[t][..|p[t]| - 1] + [Reset(o.value)]]
  {
  }

  /** The trimming rule: a pool holding more than half the capacity is cut
      back to its first quarter-capacity objects. */
  function TrimPool(s: seq<PoolObject>, capacity: nat): (r: seq<PoolObject>)
    ensures |r| <= |s|
    ensures 2 * |r| <= capacity || r == s
    ensures r == s[..|r|]
    ensures 2 * |s| > capacity ==> |r| == capacity / 4
    ensures 2 * |s| <= capacity ==> r == s
  {
    if 2 * |s| > capacity then s[..capacity / 4] else s
  }

  function TrimPools(p: Pools, capacity: nat): (r: Pools)
    ensures r.Keys == p.Keys
    ensures forall t | t in p :: r[t] == TrimPool(p[t], capacity)
  {
    map t | t in p :: TrimPool(p[t], capacity)
  }

  /** After trimming, every pool is at most half full, keeps its oldest
      objects, and trimming again changes nothing. */
  lemma TrimmedPools(p: Pools, capacity: nat)
    ensures var r := TrimPools(p, capacity);
      PoolsBounded(r, capacity / 2) &&
      (forall t | t in p :: r[t] == p[t][..|r[t]|]) &&
      TrimPools(r, capacity) == r
  {
    var r := TrimPools(p, capacity);
    forall t | t in p ensures 2 * |r[t]| <= capacity {
      if 2 * |p[t]| > capacity {
        assert |r[t]| == capacity / 4;
      }
    }
  }

  /** The dirty-region history is cut to its last twenty entries once it
      holds more than fifty. */
  function TrimRegions(d: seq<Bounds>): (r: seq<Bounds>)
    ensures |r| <= |d|
    ensures |r| <= 50 || r == d
    ensures r == d[|d| - |r|..]
    ensures |d| > 50 ==> |r| == 20
    ensures |d| <= 50 ==> r == d
  {
    if |d| > 50 then d[|d| - 20..] else d
  }

  // --------------------------------------------------------- adaptive LOD

  /** The adaptive rule: sustained slow frames lower the medium and low
      thresholds by ten percent while medium is above 0.3, fast frames raise
      them by ten percent while medium is below 0.7. */
  function AdjustedThresholds(t: Thresholds, frameTime: real, target: real): (r: Thresholds)
    ensures r.high == t.high && r.minimal == t.minimal
    ensures r.medium * t.low == r.low * t.medium
  {
    if frameTime > target * 1.5 then
      if t.medium > 0.3 then t.(medium := t.medium * 0.9, low := t.low * 0.9) else t
    else if frameTime < target * 0.7 then
      if t.medium < 0.7 then t.(medium := t.medium * 1.1, low := t.low * 1.1) else t
    else t
  }

  /** The medium threshold never leaves the band [0.27, 0.77] it starts in. */
  lemma AdjustedStaysInBand(t: Thresholds, frameTime: real, target: real)
    requires 0.27 <= t.medium <= 0.77
    ensures 0.27 <= AdjustedThresholds(t, frameTime, target).medium <= 0.77
  {
  }

  /** Slow frames never raise the thresholds, fast frames never lower them,
      and the thresholds stay ordered while high is at least 0.77. */
  lemma AdjustedDirection(t: Thresholds, frameTime: real, target: real)
    requires t.medium >= 0.0 && t.low >= 0.0
    ensures var r := AdjustedThresholds(t, frameTime, target);
      (frameTime > target * 1.5 ==> r.medium <= t.medium && r.low <= t.low) &&
      (frameTime <= target * 1.5 ==> r.medium >= t.medium && r.low >= t.low)
    ensures var r := AdjustedThresholds(t, frameTime, target);
      Ordered(t) && t.high >= 0.77 && t.medium <= 0.77 ==> Ordered(r)
  {
  }

  // ------------------------------------------------------ frame statistics

  datatype Metrics = Metrics(
    frameCount: nat,
    totalFrameTime: real,
    averageFrameTime: real,
    worstFrameTime: real,
    droppedFrames: nat,
    renderCalls: nat,
    culledObjects: nat,
    lodSimplifications: nat)

  const NoMetrics := Metrics(0, 0.0, 0.0, 0.0, 0, 0, 0, 0)

  /** The statistics are consistent: the average is the total over the
      count, no frame is dropped that was not counted, and the worst frame is
      at least the average. */
  predicate Consistent(m: Metrics)
  {
    m.droppedFrames <= m.frameCount && m.totalFrameTime >= 0.0 && m.worstFrameTime >= 0.0 &&
    (m.frameCount == 0 ==> m.totalFrameTime == 0.0 && m.averageFrameTime == 0.0) &&
    (m.frameCount > 0 ==> m.averageFrameTime * m.frameCount as real == m.totalFrameTime) &&
    m.totalFrameTime <= m.frameCount as real * m.worstFrameTime
  }

  /** One frame of `delta` milliseconds recorded into the statistics; a frame
      longer than twice the target counts as dropped. */
  function RecordFrame(m: Metrics, delta: real, target: real): Metrics
  {
    var count := m.frameCount + 1;
    var total := m.totalFrameTime + delta;
    m.(frameCount := count, totalFrameTime := total, averageFrameTime := total / count as real,
       worstFrameTime := if delta > m.worstFrameTime then delta else m.worstFrameTime,
       droppedFrames := if delta > target * 2.0 then m.droppedFrames + 1 else m.droppedFrames)
  }

  /** Recording a frame of non-negative length keeps the statistics
      consistent, and then the worst frame is at least the average. */
  lemma RecordFrameConsistent(m: Metrics, delta: real, target: real)
    requires Consistent(m) && delta >= 0.0
    ensures Consistent(RecordFrame(m, delta, target))
    ensures var r := RecordFrame(m, delta, target); r.averageFrameTime <= r.worstFrameTime
  {
    var r := RecordFrame(m, delta, target);
    var n := m.frameCount as real;
    var c := r.frameCount as real;
    var t := r.totalFrameTime;
    var w := r.worstFrameTime;
    assert c == n + 1.0;
    assert n * m.worstFrameTime <= n * w by {
      assert n * w - n * m.worstFrameTime == n * (w - m.worstFrameTime);
    }
    assert c * w == n * w + w;
    assert t <= c * w;
    AverageAtMostWorst(t, c, w);
  }

  lemma AverageAtMostWorst(t: real, c: real, w: real)
    requires c > 0.0 && t <= c * w
    ensures t / c <= w
  {
    assert t / c * c <= w * c;
  }

  /** Counting `k` more simplified elements. */
  function CountSimplifications(m: Metrics, k: nat): (r: Metrics)
    ensures r.lodSimplifications == m.lodSimplifications + k
    ensures Consistent(r) <==> Consistent(m)
  {
    m.(lodSimplifications := m.lodSimplifications + k)
  }

  /** Recording the number of elements the last pass culled. */
  function RecordCulled(m: Metrics, culled: nat): (r: Metrics)
    ensures r.culledObjects == culled
    ensures Consistent(r) <==> Consistent(m)
  {
    m.(culledObjects := culled)
  }

  /** Counting one more render call. */
  function CountRenderCall(m: Metrics): (r: Metrics)
    ensures r.renderCalls == m.renderCalls + 1
    ensures Consistent(r) <==> Consistent(m)
  {
    m.(renderCalls := m.renderCalls + 1)
  }

  lemma CountSimplificationsAdd(m: Metrics, a: nat, b: nat)
    ensures CountSimplifications(CountSimplifications(m, a), b) == CountSimplifications(m, a + b)
  {
  }

  /** `Math.round(1000 / delta)`, which is +Infinity for a zero delta. */
  function FramesPerSecond(delta: real): (r: Ext)
    requires delta >= 0.0
    ensures delta == 0.0 <==> r.PosInf?
    ensures delta > 0.0 ==> r.Fin? && 1000.0 / delta - 0.5 < r.v <= 1000.0 / delta + 0.5
  {
    if delta == 0.0 then PosInf else Fin(Round(1000.0 / delta) as real)
  }

  // ---------------------------------------------------- performance modes

  datatype ModeSettings = ModeSettings(enableLod: bool, enableCulling: bool, enableBatching: bool,
                                       adaptiveQuality: bool, aggressiveLod: bool)

  /** The preset for a mode name; an unknown name selects `balanced`. */
  function PresetFor(mode: string): (s: ModeSettings)
    ensures mode == "quality" ==> !s.enableLod && !s.enableCulling && !s.enableBatching && !s.adaptiveQuality
    ensures mode != "quality" ==> s.enableLod && s.enableCulling && s.enableBatching && s.adaptiveQuality
    ensures s.aggressiveLod <==> mode == "performance"
  {
    if mode == "quality" then ModeSettings(false, false, false, false, false)
    else if mode == "performance" then ModeSettings(true, true, true, true, true)
    else ModeSettings(true, true, true, true, false)
  }

  /** The aggressive preset's thresholds and factors. */
  function Aggressive(lod: LodConfig): (r: LodConfig)
    ensures r.enabled == lod.enabled && r.thresholds.high == lod.thresholds.high
    ensures PositiveFactors(lod.factors) ==> PositiveFactors(r.factors)
  {
    lod.(thresholds := lod.thresholds.(medium := 0.7, low := 0.4),
         factors := lod.factors.(low := 0.3, minimal := 0.1))
  }

  /** Under the performance preset a stroke keeps every tenth point at
      minimal detail and every third at low detail. */
  lemma AggressiveMinimalStride()
    ensures Stride(Aggressive(DefaultLod).factors.minimal) == 10
    ensures Stride(Aggressive(DefaultLod).factors.low) == 3
  {
  }

  // ---------------------------------------------------------------- viewport

  /** A partial viewport: the fields given replace the current ones. */
  datatype ViewportPatch = ViewportPatch(x: Option<real>, y: Option<real>, width: Option<real>,
                                         height: Option<real>, scale: Option<real>)

  function Pick(o: Option<real>, current: real): real
  {
    if o.Some? then o.value else current
  }

  function MergeViewport(vp: Viewport, p: ViewportPatch): (r: Viewport)
    ensures p.x.Some? ==> r.x == p.x.value
    ensures p.x.None? ==> r.x == vp.x
    ensures p.y.Some? ==> r.y == p.y.value
    ensures p.y.None? ==> r.y == vp.y
    ensures p.width.Some? ==> r.width == p.width.value
    ensures p.width.None? ==> r.width == vp.width
    ensures p.height.Some? ==> r.height == p.height.value
    ensures p.height.None? ==> r.height == vp.height
    ensures p.scale.Some? ==> r.scale == p.scale.value
    ensures p.scale.None? ==> r.scale == vp.scale
  {
    Viewport(Pick(p.x, vp.x), Pick(p.y, vp.y), Pick(p.width, vp.width), Pick(p.height, vp.height),
             Pick(p.scale, vp.scale))
  }

  /** Merging nothing changes nothing, and merging the same patch twice is
      merging it once. */
  lemma MergeLaws(vp: Viewport, p: ViewportPatch)
    ensures MergeViewport(vp, ViewportPatch(None, None, None, None, None)) == vp
    ensures MergeViewport(MergeViewport(vp, p), p) == MergeViewport(vp, p)
  {
  }
}
