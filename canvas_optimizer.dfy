/** The render optimiser as an object: its configuration, its frame
    statistics, its object pools and its dirty-region history are fields
    that the operations update in place. Clocks are parameters: each
    operation that reads `performance.now()` takes the reading as an
    argument, and the distances of the elements to the viewport centre are
    supplied with them. */
module CanvasOptimization {
  import opened Common
  import opened CanvasGeometry
  import opened LevelOfDetail
  import opened Batching
  import opened RenderPipeline

  datatype RenderConfig = RenderConfig(
    enableDoubleBuffering: bool,
    enableDirtyRegionOptimization: bool,
    enableBatchRendering: bool,
    maxBatchSize: int,
    enableObjectPooling: bool,
    enableVirtualization: bool,
    throttleRedraws: bool,
    targetFrameTime: real,
    adaptiveQuality: bool)

  const DefaultRender := RenderConfig(true, true, true, 100, true, true, true, 16.67, true)

  datatype MemoryConfig = MemoryConfig(
    enableGarbageCollection: bool,
    maxMemoryUsage: real,
    cleanupThreshold: real,
    enableTextureCompression: bool,
    enableMeshCompression: bool,
    poolSize: nat)

  const DefaultMemory := MemoryConfig(true, 536870912.0, 0.8, true, true, 1000)

  const PoolKindSet := {"nodes", "lines", "shapes", "images", "texts"}

  /** What one optimisation pass reports back. */
  datatype PassSummary = PassSummary(elementCount: nat, visibleCount: nat, culledCount: nat, renderTime: real)

  datatype CanvasResult = CanvasResult(
    elements: BatchResult,
    dirtyRegions: Option<seq<Bounds>>,
    lodLevels: seq<Lod>,
    performance: PassSummary)

  datatype Report = Report(
    fps: Ext, frameTime: real, renderTime: real, memoryUsage: real,
    elementCount: nat, visibleElementCount: nat, culledObjects: nat, lodSimplifications: nat,
    droppedFrames: nat, averageFrameTime: real, worstFrameTime: real)

  /** The whole state of an optimiser, so that contracts can say which part
      an operation changes. */
  datatype OptimizerState = OptimizerState(
    fps: Ext, frameTime: real, renderTime: real, memoryUsage: real,
    elementCount: nat, visibleElementCount: nat, viewport: Viewport,
    lod: LodConfig, culling: CullingConfig, render: RenderConfig, memory: MemoryConfig,
    metrics: Metrics, pools: Pools, dirtyRegions: seq<Bounds>, lastFrameTime: real)

  /** The pool-trimming loop over the pools present. */
  method TrimEachPool(p: Pools, capacity: nat) returns (r: Pools)
    ensures r == TrimPools(p, capacity)
  {
    r := p;
    var todo := p.Keys;
    while todo != {}
      invariant todo <= p.Keys && r.Keys == p.Keys
      invariant forall t | t in r :: r[t] == if t in todo then p[t] else TrimPool(p[t], capacity)
      decreases todo
    {
      var t :| t in todo;
      r := r[t := TrimPool(r[t], capacity)];
      todo := todo - {t};
    }
  }

  class CanvasOptimizer {
    var fps: Ext
    var frameTime: real
    var renderTime: real
    var memoryUsage: real
    var elementCount: nat
    var visibleElementCount: nat
    var viewport: Viewport
    var lod: LodConfig
    var culling: CullingConfig
    var render: RenderConfig
    var memory: MemoryConfig
    var metrics: Metrics
    var pools: Pools
    var dirtyRegions: seq<Bounds>
    var lastFrameTime: real

    function State(): OptimizerState
      reads this
    {
      OptimizerState(fps, frameTime, renderTime, memoryUsage, elementCount, visibleElementCount,
                     viewport, lod, culling, render, memory, metrics, pools, dirtyRegions, lastFrameTime)
    }

    /** The invariant every operation keeps: simplification factors are
        positive, the culling distance and batch size are positive, the pools
        are within capacity, and the frame statistics are consistent. */
    predicate Valid()
      reads this
    {
      PipelineConfig(lod, culling) && render.maxBatchSize >= 1 &&
      PoolsBounded(pools, memory.poolSize) &&
      Consistent(metrics) && frameTime >= 0.0
    }

    constructor(now: real)
      ensures Valid()
      ensures fps == Fin(60.0) && frameTime == 0.0 && renderTime == 0.0 && memoryUsage == 0.0
      ensures elementCount == 0 && visibleElementCount == 0 && viewport == DefaultViewport
      ensures lod == DefaultLod && culling == DefaultCulling && render == DefaultRender && memory == DefaultMemory
      ensures metrics == NoMetrics && dirtyRegions == [] && lastFrameTime == now
      ensures pools == map t | t in PoolKindSet :: []
    {
      fps := Fin(60.0);
      frameTime := 0.0;
      renderTime := 0.0;
      memoryUsage := 0.0;
      elementCount := 0;
      visibleElementCount := 0;
      viewport := DefaultViewport;
      lod := DefaultLod;
      culling := DefaultCulling;
      render := DefaultRender;
      memory := DefaultMemory;
      metrics := NoMetrics;
      pools := map t | t in PoolKindSet :: [];
      dirtyRegions := [];
      lastFrameTime := now;
    }

    /** Simplifying one element at level `l`, counting decimated strokes and
        truncated paths in the statistics. */
    method ApplyLODSimplification(e: Element, l: Lod) returns (r: Element)
      requires Valid() && WellFormed(e)
      modifies this
      ensures Valid()
      ensures r == Simplify(lod, e, l)
      ensures State() == old(State()).(metrics :=
        CountSimplifications(old(metrics), if CountsAsSimplification(lod, e, l) then 1 else 0))
    {
      if !lod.enabled || l == High {
        metrics := CountSimplifications(metrics, 0);
        return e;
      }
      var f := FactorFor(lod.factors, l);
      var shaped := e;
      var counted := 0;
      if SimplifiesStroke(e) {
        var pts := SimplifyPoints(e.points.value, f);
        shaped := e.(points := Some(pts));
        counted := 1;
      } else if SimplifiesPath(e) {
        shaped := e.(data := Some(SimplifyPath(e.data.value, f)));
        counted := 1;
      } else {
        shaped := Reshaped(e, l, f);
      }
      metrics := CountSimplifications(metrics, counted);
      assert shaped == Reshaped(e, l, f);
      if TruthyNum(e.shadowBlur) {
        shaped := shaped.(shadowBlur := Some(Scale(e.shadowBlur.value, f)));
      }
      r := shaped;
    }

    /** The culling and simplification pass: the result is the render list
        of the elements, and the statistics record how many were culled and
        how many were simplified. */
    method OptimizeRenderList(es: seq<Element>, vp: Viewport, ds: seq<real>) returns (out: seq<Optimized>)
      requires Valid() && Measured(es, vp, ds)
      modifies this
      ensures Valid()
      ensures out == RenderList(lod, culling, es, vp, ds)
      ensures State() == old(State()).(metrics :=
        RecordCulled(CountSimplifications(old(metrics), SimplifiedCount(lod, culling, es, vp, ds)),
                     CulledCount(culling, es, vp, ds)))
    {
      out := [];
      var culled := 0;
      var i := 0;
      while i < |es|
        invariant 0 <= i <= |es| && Valid()
        invariant Measured(es[..i], vp, ds[..i])
        invariant out == RenderList(lod, culling, es[..i], vp, ds[..i])
        invariant culled == CulledCount(culling, es[..i], vp, ds[..i])
        invariant State() == old(State()).(metrics :=
          CountSimplifications(old(metrics), SimplifiedCount(lod, culling, es[..i], vp, ds[..i])))
      {
        assert es[..i + 1][..i] == es[..i] && ds[..i + 1][..i] == ds[..i];
        MeasuredPrefix(es, vp, ds, i + 1);
        var e, d := es[i], ds[i];
        if !IsInViewport(culling, e, vp) {
          culled := culled + 1;
        } else if culling.enableDistanceCulling && d > culling.maxCullingDistance {
          culled := culled + 1;
        } else {
          var level := LodLevel(lod, culling.maxCullingDistance, vp, d);
          var simplified := ApplyLODSimplification(e, level);
          out := out + [Optimized(simplified, level, d)];
        }
        i := i + 1;
      }
      assert es[..i] == es && ds[..i] == ds;
      metrics := RecordCulled(metrics, culled);
    }

    /** The bounds of every changed element, or nothing when dirty-region
        optimisation is off. */
    method CalculateDirtyRegions(changed: seq<Element>) returns (r: Option<seq<Bounds>>)
      requires forall i :: 0 <= i < |changed| ==> WellFormed(changed[i])
      ensures r.None? <==> !render.enableDirtyRegionOptimization
      ensures r.Some? ==>
        |r.value| == |changed| && forall i :: 0 <= i < |changed| ==> r.value[i] == ElementBounds(changed[i])
    {
      if !render.enableDirtyRegionOptimization {
        return None;
      }
      var regions: seq<Bounds> := [];
      var i := 0;
      while i < |changed|
        invariant 0 <= i <= |changed| && |regions| == i
        invariant forall k :: 0 <= k < i ==> regions[k] == ElementBounds(changed[k])
      {
        var b := GetElementBounds(changed[i]);
        regions := regions + [b];
        i := i + 1;
      }
      r := Some(regions);
    }

    /** Taking an object from the pool of kind `t`. */
    method GetPooledObject(t: string) returns (o: Option<PoolObject>)
      requires Valid()
      modifies this
      ensures Valid()
      ensures !old(render).enableObjectPooling ==> o.None? && State() == old(State())
      ensures old(render).enableObjectPooling ==>
        (o, State()) == (TakeFrom(old(pools), t).0, old(State()).(pools := TakeFrom(old(pools), t).1))
    {
      if !render.enableObjectPooling {
        return None;
      }
      PutKeepsBound(pools, t, PoolObject("", false, false), memory.poolSize);
      var taken := TakeFrom(pools, t);
      o := taken.0;
      pools := taken.1;
    }

    /** Giving an object back to the pool of kind `t`. */
    method ReturnToPool(t: string, obj: PoolObject)
      requires Valid()
      modifies this
      ensures Valid()
      ensures !old(render).enableObjectPooling ==> State() == old(State())
      ensures old(render).enableObjectPooling ==>
        State() == old(State()).(pools := PutInto(old(pools), t, obj, old(memory).poolSize))
    {
      if render.enableObjectPooling {
        PutKeepsBound(pools, t, obj, memory.poolSize);
        pools := PutInto(pools, t, obj, memory.poolSize);
      }
    }

    /** The periodic quality adjustment. */
    method AdjustQuality()
      requires Valid()
      modifies this
      ensures Valid()
      ensures !old(render).adaptiveQuality ==> State() == old(State())
      ensures old(render).adaptiveQuality ==> State() == old(State()).(lod := old(lod).(thresholds :=
        AdjustedThresholds(old(lod).thresholds, old(frameTime), old(render).targetFrameTime)))
    {
      if render.adaptiveQuality {
        lod := lod.(thresholds := AdjustedThresholds(lod.thresholds, frameTime, render.targetFrameTime));
      }
    }

    /** The periodic cleanup: the dirty-region history and the pools are
        trimmed; `gcCalled` says whether the engine's collector would be
        invoked, given whether it is available. */
    method PerformMemoryCleanup(gcAvailable: bool) returns (gcCalled: bool)
      requires Valid()
      modifies this
      ensures Valid()
      ensures !old(memory).enableGarbageCollection ==> !gcCalled && State() == old(State())
      ensures old(memory).enableGarbageCollection ==>
        State() == old(State()).(dirtyRegions := TrimRegions(old(dirtyRegions)),
                                 pools := TrimPools(old(pools), old(memory).poolSize)) &&
        (gcCalled <==> gcAvailable && memoryUsage > memory.maxMemoryUsage * memory.cleanupThreshold)
    {
      if !memory.enableGarbageCollection {
        return false;
      }
      dirtyRegions := TrimRegions(dirtyRegions);
      pools := TrimEachPool(pools, memory.poolSize);
      TrimmedPools(old(pools), memory.poolSize);
      gcCalled := gcAvailable && memoryUsage > memory.maxMemoryUsage * memory.cleanupThreshold;
    }

    /** The frame timer's tick at time `now`. */
    method UpdatePerformanceMetrics(now: real)
      requires Valid() && now >= lastFrameTime
      modifies this
      ensures Valid()
      ensures State() == old(State()).(
        lastFrameTime := now, frameTime := now - old(lastFrameTime), fps := FramesPerSecond(now - old(lastFrameTime)),
        metrics := RecordFrame(old(metrics), now - old(lastFrameTime), old(render).targetFrameTime))
      ensures metrics.frameCount == old(metrics).frameCount + 1
      ensures metrics.averageFrameTime <= metrics.worstFrameTime
    {
      var delta := now - lastFrameTime;
      lastFrameTime := now;
      frameTime := delta;
      fps := FramesPerSecond(delta);
      RecordFrameConsistent(metrics, delta, render.targetFrameTime);
      metrics := RecordFrame(metrics, delta, render.targetFrameTime);
    }

    /** The memory timer's sample of the heap size. */
    method SampleMemory(usedHeap: real)
      requires Valid()
      modifies this
      ensures Valid()
      ensures State() == old(State()).(memoryUsage := usedHeap)
    {
      memoryUsage := usedHeap;
    }

    /** One optimisation pass over the scene, `elapsed` being the time the
        pass took. The result batches the render list, reports no dirty
        region (none is ever passed in), lists the detail levels used, and
        accounts for every element as either visible or culled. */
    method OptimizeCanvas(es: seq<Element>, vp: Viewport, ds: seq<real>, elapsed: real) returns (res: CanvasResult)
      requires Valid() && Measured(es, vp, ds)
      modifies this
      ensures Valid()
      ensures var out := RenderList(lod, culling, es, vp, ds);
        res.elements == (if render.enableBatchRendering then Batched(Batches(out, render.maxBatchSize as nat))
                         else Unbatched(out)) &&
        res.lodLevels == Dedupe(LevelsOf(out)) &&
        res.performance == PassSummary(|es|, |out|, CulledCount(culling, es, vp, ds), elapsed)
      ensures res.dirtyRegions == if render.enableDirtyRegionOptimization then Some([]) else None
      ensures res.performance.visibleCount + res.performance.culledCount == res.performance.elementCount
      ensures State() == old(State()).(
        viewport := vp, elementCount := |es|, visibleElementCount := res.performance.visibleCount,
        renderTime := elapsed,
        metrics := CountRenderCall(
          RecordCulled(CountSimplifications(old(metrics), SimplifiedCount(lod, culling, es, vp, ds)),
                       CulledCount(culling, es, vp, ds))))
    {
      var out := OptimizeRenderList(es, vp, ds);
      RenderListAccounting(lod, culling, es, vp, ds);
      res := AssembleResult(|es|, out, metrics.culledObjects, elapsed);
      RecordPass(vp, |es|, |out|, elapsed);
    }

    /** The bookkeeping at the end of a pass. */
    method RecordPass(vp: Viewport, count: nat, visible: nat, elapsed: real)
      requires Valid()
      modifies this
      ensures Valid()
      ensures State() == old(State()).(viewport := vp, elementCount := count, visibleElementCount := visible,
                                       renderTime := elapsed, metrics := CountRenderCall(old(metrics)))
    {
      viewport, elementCount, visibleElementCount, renderTime := vp, count, visible, elapsed;
      metrics := CountRenderCall(metrics);
    }

    /** The second half of a pass: batching the render list, the (empty)
        dirty regions, the levels used and the counts. */
    method AssembleResult(count: nat, out: seq<Optimized>, culled: nat, elapsed: real) returns (res: CanvasResult)
      requires render.maxBatchSize >= 1
      ensures res.elements == if render.enableBatchRendering
        then Batched(Batches(out, render.maxBatchSize as nat)) else Unbatched(out)
      ensures res.dirtyRegions == if render.enableDirtyRegionOptimization then Some([]) else None
      ensures res.lodLevels == Dedupe(LevelsOf(out))
      ensures res.performance == PassSummary(count, |out|, culled, elapsed)
    {
      var batched := BatchElements(render.enableBatchRendering, render.maxBatchSize as nat, out);
      var dirty := CalculateDirtyRegions([]);
      assert dirty.Some? ==> dirty.value == [];
      res := CanvasResult(batched, dirty, Dedupe(LevelsOf(out)), PassSummary(count, |out|, culled, elapsed));
    }

    /** Replacing the viewport fields the patch gives. */
    method UpdateViewport(p: ViewportPatch)
      requires Valid()
      modifies this
      ensures Valid()
      ensures State() == old(State()).(viewport := MergeViewport(old(viewport), p))
    {
      viewport := MergeViewport(viewport, p);
    }

    /** Switching to a named performance mode. */
    method SetPerformanceMode(mode: string)
      requires Valid()
      modifies this
      ensures Valid()
      ensures var s := PresetFor(mode);
        var base := old(lod).(enabled := s.enableLod);
        State() == old(State()).(
          lod := if s.aggressiveLod then Aggressive(base) else base,
          culling := old(culling).(enabled := s.enableCulling),
          render := old(render).(enableBatchRendering := s.enableBatching, adaptiveQuality := s.adaptiveQuality))
    {
      var s := PresetFor(mode);
      lod := lod.(enabled := s.enableLod);
      culling := culling.(enabled := s.enableCulling);
      render := render.(enableBatchRendering := s.enableBatching, adaptiveQuality := s.adaptiveQuality);
      if s.aggressiveLod {
        lod := Aggressive(lod);
      }
    }

    /** The performance report: a read-only view in which, once a frame has
        been recorded, the average frame time never exceeds the worst. */
    function PerformanceReport(): (r: Report)
      reads this
      ensures r.droppedFrames == metrics.droppedFrames && r.fps == fps
      ensures Valid() ==> r.averageFrameTime >= 0.0
      ensures Valid() && metrics.frameCount > 0 ==> r.averageFrameTime <= r.worstFrameTime
      ensures Valid() ==> r.droppedFrames <= metrics.frameCount
    {
      Report(fps, frameTime, renderTime, memoryUsage, elementCount, visibleElementCount,
             metrics.culledObjects, metrics.lodSimplifications, metrics.droppedFrames,
             metrics.averageFrameTime, metrics.worstFrameTime)
    }
  }
}
