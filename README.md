# eco-draw render optimiser and canvas stores, modelled in Dafny

This project models the core of eco-draw, a browser drawing and garden-planning
canvas. It covers the render-optimisation pipeline and the state stores around
the canvas. Each source file becomes one Dafny module, and the project proves
what each operation promises.

- **Render optimiser** (`useCanvasOptimization.js`):
  - `canvas_geometry.dfy`: element bounds, centres and the viewport test. Bounds start from infinite sentinels (`ExtReal`).
  - `level_of_detail.dfy`: picking the level of detail, decimating strokes, truncating path data and the other per-level simplifications.
  - `batching.dfy`: batching by category.
  - `render_pipeline.dfy`: the render list, pools, adaptive thresholds, frame statistics, memory trimming, presets and viewport merging, as pure functions.
  - `canvas_optimizer.dfy`: the optimiser itself. Its configuration, metrics, pools and dirty-region history are fields of `CanvasOptimizer`, updated in place by methods with loops.
- **Layers** (`layers.dfy`, `useLayers.js`): the layer list, the selection, the active layer and the sync against the element list.
- **Projects** (`projects.dfy`, `useProjects.js`): the project list, capped at 50, and the open tabs.
- **Advanced shapes** (`shapes.dfy`, `useAdvancedShapes.js`):
  - the shape list with creation defaults, delete, duplicate, copy and paste;
  - the hit tests;
  - the garden-path data serialiser, whose output is SVG path data (SVG 1.1, section 8.3).
- **Canvas elements** (`canvas_elements.dfy`, `useCanvasElements.js`): line and shape creation, the stroke-point appender, the spacing parser and the icon and colour tables.
- **Companion planting** (`smart_planting.dfy`, `useSmartPlanting.js`):
  - the two-way compatibility lookup;
  - suggestions and conflict reports;
  - the growing-condition checks;
  - the placed-plant list and its statistics.
- **Object snapping** (`smart_snapping.dfy`, `useSmartSnapping.js`):
  - the tracked objects and the snap-point cache;
  - the nearest snap point;
  - the sorted custom-angle and distance lists.
- **Tool analytics** (`tool_analytics.dfy`, `useToolUsageAnalytics.js`):
  - the usage history and the session;
  - the most used tools;
  - transition, workflow and context suggestions;
  - recent tools and statistics.
- **Small helpers and stores:** grid rounding (`canvas_interaction.dfy`), the tool store (`tool_store.dfy`) and the panel toggles (`ui_store.dfy`).
- **Shared utilities** (`common.dfy`): `Option`, JavaScript numbers that may be NaN, de-duplication through a `Set`, and the stable descending sort that `Array.prototype.sort` performs with a `b - a` comparator.

Clocks (`Date.now()`, `performance.now()`), memory readings and generated ids
are parameters of the operations that read them. Squared distances are
compared instead of distances, so the model needs no square root.
Operations that change state are methods of classes: `CanvasOptimizer`,
`LayerStore`, `ProjectStore`, `ShapeStore`, `CanvasStore`, `Garden`,
`Snapper`, `Analytics` and the two stores. Each method's `ensures` gives the
new state as a function of the old one. The lemmas prove what the source
promises about those functions.

The model follows the code where it departs from the documented intent:

- An element without `x`/`y` and without `points` gets infinite bounds, not a point at the origin, so culling always drops it.
- An element with `x`/`y` but no size gets a right edge of minus infinity, and is culled too.
- Only circles get a segment count.
- The `other` category is batched like the rest.
- `adjustQuality` tests its 0.3 and 0.7 gates before it scales, so `medium` can end up just past a gate.
- `simplifyPath` keeps at least three command groups.

## Model

| member | source | states |
|---|---|---|
| Common.Round | src/composables/useCanvasInteraction.js:42-43 | `Math.round` gives the integer within half of its argument, halves rounded upward |
| Common.OrElse | src/composables/useLayers.js:13-14 | the logical or of two strings is `a` when truthy and `b` otherwise |
| Common.OrElseNum | src/composables/useAdvancedShapes.js:63-64 | the logical or of two numbers is `a` when truthy and `b` otherwise |
| Common.NatToString | src/composables/useLayers.js:14 | the decimal rendering of a count is a non-empty string of digits |
| Common.ToLower | src/composables/useSmartPlanting.js:182-183 | `toLowerCase` restricted to ASCII: keeps the length, maps each of `A` to `Z` to its lower-case letter and leaves every other character as it is |
| Common.Dedupe | src/composables/useCanvasOptimization.js:528 | `[...new Set(s)]` has no repeats, the same members as `s`, is no longer, and starts with the first element |
| Common.DedupeCard | src/composables/useToolUsageAnalytics.js:311 | `new Set(s).size` is the length of the de-duplicated list |
| Common.NoDupCard | src/composables/useToolUsageAnalytics.js:311 | a list without repeats has as many distinct members as elements |
| Common.Take | src/composables/useToolUsageAnalytics.js:169 | `slice(0, n)` is the first min(n, length) elements |
| Common.Slice0 | src/composables/useToolUsageAnalytics.js:303 | `slice(0, n)` is a prefix; for negative n it drops -n elements from the end |
| Common.IndexOf | src/composables/useLayers.js:50 | `indexOf` finds the first occurrence, and stands at the end exactly when the value is absent |
| Common.FirstIndex | src/composables/useLayers.js:46 | `findIndex` finds the first element that passes, and every earlier element fails |
| Common.Filter | src/composables/useToolUsageAnalytics.js:257 | a filtered list is no longer than the list |
| Common.FilterMembers | src/composables/useToolUsageAnalytics.js:257 | the filter keeps exactly the members that pass |
| Common.FilterNoDup | src/composables/useLayers.js:158-165 | filtering a list without repeats leaves none |
| Common.TakeNoDup | src/composables/useToolUsageAnalytics.js:169 | a prefix of a list without repeats has none |
| Common.FilterSnoc | src/composables/useToolUsageAnalytics.js:257 | filtering a list with one more element at its end adds that element exactly when it passes |
| Common.RemoveAt | src/composables/useLayers.js:48 | `splice(k, 1)` shortens the list by one, keeping the elements before k and shifting those after it |
| Common.RemoveFirst | src/composables/useLayers.js:50-53 | `indexOf` then `splice`: an absent value changes nothing, a present one shortens the list by one, and a list without repeats loses exactly that value |
| Common.RemoveAtSubset | src/composables/useLayers.js:48 | `splice(k, 1)` introduces no new member |
| Common.RemoveFirstOfNoDup | src/composables/useLayers.js:50-53 | removing the first occurrence from a list without repeats removes the value and keeps every other member |
| Common.AtMostSquared | src/composables/useSmartPlanting.js:94-124 | for a distance whose square is the squared distance, `d <= r` holds exactly when r >= 0 and the square of d is at most the square of r |
| Common.BelowSquared | src/composables/useSmartSnapping.js:102-145 | `d < r` holds exactly when r > 0 and the square of d is below the square of r |
| Common.InsertDesc | src/composables/useProjects.js:297 | insertion into a descending list keeps it descending, adds exactly the new element, and puts it ahead of equal keys |
| Common.SortedPrefixIsTop | src/composables/useSmartPlanting.js:123 | the first n entries of a descending sort are sorted, a sub-multiset of the input, and no entry left out has a larger key than an entry kept |
| Common.SortDesc | src/composables/useProjects.js:297 | the sort by `b - a` is descending and a permutation of its input |
| Common.SortAsc | src/composables/useSmartSnapping.js:460-474 | the sort by `a - b` is ascending and a permutation of its input |
| Common.NoDupPermutation | src/composables/useProjects.js:297 | reordering a list without repeats creates none |
| Common.RemoveAtSortedAsc | src/composables/useSmartSnapping.js:467 | `splice(k, 1)` keeps an ascending list ascending |
| Common.RemoveFirstSortedAsc | src/composables/useSmartSnapping.js:464-469 | removing the first occurrence keeps an ascending list ascending |
| ToolStore.NextOption | src/stores/tool.js:9-27 | a truthy option is kept as given; otherwise a tool in the defaults table gets its default option and any other tool keeps the current one |
| ToolStore.DefaultsTruthy | src/stores/tool.js:14-25 | every entry of the defaults table is a non-empty string, so the table lookup is truthy exactly for the tools it lists |
| ToolStore.SetToolIdempotent | src/stores/tool.js:9-27 | calling `setTool` twice with the same arguments leaves the same option as calling it once |
| ToolStore.DefaultForgetsCurrent | src/stores/tool.js:14-25 | with no option, a tool from the table gets the same option whatever the option was before |
| ToolStore.Store.constructor | src/stores/tool.js:4-7 | the store starts with tool `brush` and option `pencil` |
| ToolStore.Store.SetTool | src/stores/tool.js:9-27 | the current tool is always the argument, and the new option is `NextOption` of the old one |
| UiStore.Toggle | src/stores/ui.js:15-38 | a toggle negates its own flag and leaves each of the other seven flags as it was |
| UiStore.ToggleTwice | src/stores/ui.js:15-38 | toggling the same flag twice restores the previous state |
| UiStore.InitialFlags | src/stores/ui.js:4-13 | in the initial state a flag is set exactly when it is `showGrid` |
| UiStore.Store.constructor | src/stores/ui.js:4-13 | the store starts in the initial state |
| UiStore.Store.ToggleLibrary | src/stores/ui.js:15-17 | the new state is `Toggle` of the old one at `showLibrary` |
| UiStore.Store.ToggleShortcuts | src/stores/ui.js:18-20 | the new state is `Toggle` of the old one at `showShortcuts` |
| UiStore.Store.ToggleExport | src/stores/ui.js:21-23 | the new state is `Toggle` of the old one at `showExport` |
| UiStore.Store.ToggleAccessibility | src/stores/ui.js:24-26 | the new state is `Toggle` of the old one at `showAccessibility` |
| UiStore.Store.ToggleProjects | src/stores/ui.js:27-29 | the new state is `Toggle` of the old one at `showProjects` |
| UiStore.Store.ToggleStats | src/stores/ui.js:30-32 | the new state is `Toggle` of the old one at `showStats` |
| UiStore.Store.ToggleCalendar | src/stores/ui.js:33-35 | the new state is `Toggle` of the old one at `showCalendar` |
| UiStore.Store.ToggleGrid | src/stores/ui.js:36-38 | the new state is `Toggle` of the old one at `showGrid` |
| CanvasInteraction.Snapped | src/composables/useCanvasInteraction.js:42-43 | `Math.round(v / gridSize) * gridSize` for a non-zero grid size; its laws are `SnapIsMultiple`, `SnapOffset`, `SnapWithinHalf` and `SnapIsNearest` |
| CanvasInteraction.SnapCoord | src/composables/useCanvasInteraction.js:42-43 | a snapped coordinate is `NaN` exactly when the grid size is 0 |
| CanvasInteraction.SnapToGridPoint | src/composables/useCanvasInteraction.js:39-46 | with snapping off the position comes back unchanged; with it on, each axis is snapped on its own |
| CanvasInteraction.SnapIsMultiple | src/composables/useCanvasInteraction.js:42-43 | a snapped coordinate is a whole number of grid cells |
| CanvasInteraction.SnapOffset | src/composables/useCanvasInteraction.js:42-43 | a snapped coordinate differs from the input by a fraction d of one cell, with -1/2 < d <= 1/2 |
| CanvasInteraction.SnapWithinHalf | src/composables/useCanvasInteraction.js:42-43 | a snapped coordinate moves by at most half a cell, and a value exactly halfway between grid lines goes to the upper one |
| CanvasInteraction.SnapIsNearest | src/composables/useCanvasInteraction.js:42-43 | no grid line is nearer the input than the snapped coordinate |
| CanvasGeometry.KindOf | src/composables/useCanvasOptimization.js:230 | the element's `type` tag read as a kind: a named kind for the seven tags the pipeline tells apart, and `Tagged` with the tag itself exactly for any other tag |
| CanvasGeometry.TagRoundTrip | src/composables/useCanvasOptimization.js:230 | reading a tag as a kind and writing it back gives the same tag, so each tag has one representation |
| CanvasGeometry.Span | src/composables/useCanvasOptimization.js:218-219 | a width or height is finite exactly when both of its extremes are, is then their difference, and is -Infinity otherwise |
| CanvasGeometry.AnchorBox | src/composables/useCanvasOptimization.js:179-199 | the extremes from `x/y` and the size fields never hold the wrong infinity, and the left bound stays +Infinity exactly when `x` or `y` is missing |
| CanvasGeometry.Include | src/composables/useCanvasOptimization.js:204-209 | after one coordinate pair is folded in, all four extremes are finite |
| CanvasGeometry.FoldPoints | src/composables/useCanvasOptimization.js:202-211 | folding the points in keeps each minimum below +Infinity only by shrinking and each maximum above -Infinity only by growing |
| CanvasGeometry.ElementBounds | src/composables/useCanvasOptimization.js:178-221 | `getElementBounds`: the anchor extent widened by every coordinate pair of a stroke with at least one pair; its laws are `BoundsEnclosePoints` and `LeftBoundAttained` |
| CanvasGeometry.GetElementBounds | src/composables/useCanvasOptimization.js:178-221 | the loop over the coordinate pairs computes exactly `ElementBounds`, the anchor extent widened by every point |
| CanvasGeometry.FoldEncloses | src/composables/useCanvasOptimization.js:202-211 | every point folded in lies inside the resulting extremes |
| CanvasGeometry.FoldAttainsMin | src/composables/useCanvasOptimization.js:206 | the folded minimum is the starting one or the x of one of the points |
| CanvasGeometry.FoldGrows | src/composables/useCanvasOptimization.js:206-209 | folding points in never narrows finite extremes |
| CanvasGeometry.BoundsEnclosePoints | src/composables/useCanvasOptimization.js:178-221 | an element's bounds enclose every point of its stroke |
| CanvasGeometry.LeftBoundAttained | src/composables/useCanvasOptimization.js:178-221 | the left bound of a stroke is the anchor's or the x of one of its points |
| CanvasGeometry.Center | src/composables/useCanvasOptimization.js:133-154 | the centre the distance is measured from: the box middle for a sized anchored element, the anchor for any other anchored one, the midpoint of the first and last pair for a stroke, the origin otherwise; its laws are `StrokeCenterWithinBounds` and `BoxCenterWithinBounds` |
| CanvasGeometry.StrokeCenterWithinBounds | src/composables/useCanvasOptimization.js:145-150 | the centre of a stroke without an anchor, the midpoint of its first and last points, lies within its bounds |
| CanvasGeometry.BoxCenterWithinBounds | src/composables/useCanvasOptimization.js:134-140 | the centre of a sized element with non-negative size lies within its bounds |
| CanvasGeometry.CenterDistSq | src/composables/useCanvasOptimization.js:119-130 | the squared distance from the element's centre to the viewport centre is non-negative |
| CanvasGeometry.DistanceExceeds | src/composables/useCanvasOptimization.js:126-129 | a distance exceeds a limit exactly when the squared distance exceeds the squared limit |
| CanvasGeometry.IsInViewport | src/composables/useCanvasOptimization.js:156-176 | `isInViewport`: with culling off always true, otherwise true unless the bounds lie wholly to one side of the viewport widened by the margin; its laws are `BoxVisibility`, `CircleVisibility`, `StrokePointInsideIsKept`, `NoGeometryIsCulled` and `BareAnchorIsCulled` |
| CanvasGeometry.NoGeometryIsCulled | src/composables/useCanvasOptimization.js:179-220 | with culling on, an element with neither a complete anchor nor a stroke is always culled |
| CanvasGeometry.BareAnchorIsCulled | src/composables/useCanvasOptimization.js:181-199 | with culling on, an anchored element with no size, no radius and no stroke has right bound -Infinity and is always culled |
| CanvasGeometry.BoxVisibility | src/composables/useCanvasOptimization.js:156-175 | a box element is kept exactly when its closed box meets the viewport widened by the margin, touching edges included |
| CanvasGeometry.CircleVisibility | src/composables/useCanvasOptimization.js:156-192 | a circle is kept exactly when its bounding square meets the widened viewport |
| CanvasGeometry.StrokePointInsideIsKept | src/composables/useCanvasOptimization.js:156-175 | a stroke with one point inside the widened viewport is kept |
| CanvasGeometry.DefaultCullingExamples | src/composables/useCanvasOptimization.js:13-46 | with the default options a 50x50 rectangle at (100, 100) is kept and one at x = 5000 is culled |
| LevelOfDetail.LevelForScale | src/composables/useCanvasOptimization.js:112-115 | the first of `high`, `medium`, `low` whose threshold the effective scale reaches, else `minimal`; its laws are `LevelThresholds` and `LevelMonotone` |
| LevelOfDetail.LevelThresholds | src/composables/useCanvasOptimization.js:112-115 | with thresholds high >= medium >= low, the chosen level is at least as fine as each level exactly when the effective scale reaches that level's threshold |
| LevelOfDetail.LevelMonotone | src/composables/useCanvasOptimization.js:112-115 | a larger effective scale never selects a coarser level |
| LevelOfDetail.EffectiveScale | src/composables/useCanvasOptimization.js:110 | for a non-negative scale and distance, the effective scale lies between a tenth of the scale and the scale itself |
| LevelOfDetail.EffectiveScaleMonotone | src/composables/useCanvasOptimization.js:110 | a larger distance never gives a larger effective scale |
| LevelOfDetail.LodLevel | src/composables/useCanvasOptimization.js:103-116 | with level of detail off, every element gets `high` |
| LevelOfDetail.CloserIsNeverCoarser | src/composables/useCanvasOptimization.js:103-116 | moving an element closer to the viewport centre never makes its level coarser |
| LevelOfDetail.DefaultLevels | src/composables/useCanvasOptimization.js:103-116 | with the default configuration, scale 1 at the centre gives `high`, and scale 0.2 gives `minimal` |
| LevelOfDetail.Stride | src/composables/useCanvasOptimization.js:276 | the decimation step `max(1, floor(1/factor))` is at least 1 |
| LevelOfDetail.Picks | src/composables/useCanvasOptimization.js:279-281 | the pairs taken at the stride form a whole number of pairs |
| LevelOfDetail.Decimated | src/composables/useCanvasOptimization.js:273-289 | a decimated coordinate list is a whole number of pairs |
| LevelOfDetail.SimplifyPoints | src/composables/useCanvasOptimization.js:273-289 | the loop returns exactly `Decimated`: the input when factor >= 1, otherwise every stride-th pair and then the last pair if the output is still shorter than the input |
| LevelOfDetail.PicksStep | src/composables/useCanvasOptimization.js:279-281 | one loop step takes the pair at the index and moves on by twice the step |
| LevelOfDetail.PicksAreStrided | src/composables/useCanvasOptimization.js:279-281 | the k-th kept pair is the input pair k strides further on |
| LevelOfDetail.PicksLength | src/composables/useCanvasOptimization.js:279-286 | the kept pairs never outnumber the input's, and are as many only when every pair was kept |
| LevelOfDetail.DecimatedKeepsEndpoints | src/composables/useCanvasOptimization.js:273-289 | a decimated stroke has at least one pair and no more pairs than the input, and starts with the input's first pair and ends with its last |
| LevelOfDetail.DecimatedIsStrided | src/composables/useCanvasOptimization.js:276-281 | apart from a final appended pair, the output pairs are the input pairs at multiples of the stride |
| LevelOfDetail.TwentyPointsAtMinimal | src/composables/useCanvasOptimization.js:273-289 | at the default minimal factor a 20-point stroke keeps pairs 0, 5, 10, 15 and the last |
| LevelOfDetail.NextCommand | src/composables/useCanvasOptimization.js:297 | the search for the next command letter stops at a command letter or the end of the text |
| LevelOfDetail.NextCommandSkips | src/composables/useCanvasOptimization.js:297 | every character the search passes over is an argument character |
| LevelOfDetail.NextCommandAt | src/composables/useCanvasOptimization.js:297 | the search stops at the first command letter |
| LevelOfDetail.GroupsAreGroups | src/composables/useCanvasOptimization.js:297 | each match of `[MLCZ][^MLCZ]*` is a command letter followed only by argument characters |
| LevelOfDetail.GroupsTile | src/composables/useCanvasOptimization.js:297 | the matches, joined, give back the path text from its first command letter on |
| LevelOfDetail.GroupsOfConcat | src/composables/useCanvasOptimization.js:297-301 | splitting joined groups into matches gives back those groups |
| LevelOfDetail.KeptGroups | src/composables/useCanvasOptimization.js:300 | for more than ten groups and a factor below 1, `max(3, floor(n*factor))` keeps at least 3 and fewer than all groups |
| LevelOfDetail.SimplifyPath | src/composables/useCanvasOptimization.js:292-306 | `simplifyPath`: a factor of at least 1 or at most ten command groups leave the data as it is; otherwise the first `max(3, floor(n*factor))` groups plus ` Z`; its law is `SimplifiedPathIsPrefix` |
| LevelOfDetail.TruncatedIsPrefix | src/composables/useCanvasOptimization.js:301 | the text of the first k groups is a strict prefix of the path's command text |
| LevelOfDetail.TruncatedRegroups | src/composables/useCanvasOptimization.js:301 | the text of the first k groups splits back into exactly those groups |
| LevelOfDetail.SimplifiedPathIsPrefix | src/composables/useCanvasOptimization.js:292-305 | a truncated path is a strict prefix of the command text followed by `" Z"`, and that prefix splits into exactly the first `max(3, floor(n*factor))` groups |
| LevelOfDetail.Reshaped | src/composables/useCanvasOptimization.js:230-262 | the per-type step changes only the detail fields and never the shadow |
| LevelOfDetail.Simplify | src/composables/useCanvasOptimization.js:224-270 | with level of detail off or at `high` the element is returned as it is; otherwise only its points, data, segments, corner radius and shadow can differ |
| LevelOfDetail.SimplifyChanges | src/composables/useCanvasOptimization.js:230-267 | each detail field changes only as the code allows: points only for lines with more than 4 coordinates and data only for paths with data (the two counted cases); segments only for circles at `low` (16) or `minimal` (8); the corner radius only for rounded rects at `minimal`, to at least 1; the shadow only when truthy, scaled by the level's factor |
| LevelOfDetail.SimplifiedStrokeKeepsEndpoints | src/composables/useCanvasOptimization.js:231-236 | a simplified stroke keeps its first and last points and never gains points |
| Batching.Bucket | src/composables/useCanvasOptimization.js:354-375 | a category's bucket is no longer than the render list and holds only entries of that category |
| Batching.Chunks | src/composables/useCanvasOptimization.js:380-393 | every slice of a category has that `batchType` and between 1 and `maxBatchSize` elements |
| Batching.BatchesIn | src/composables/useCanvasOptimization.js:379-394 | every batch has between 1 and `maxBatchSize` elements and one of the listed categories |
| Batching.Batches | src/composables/useCanvasOptimization.js:377-396 | every batch is non-empty and has at most `maxBatchSize` elements |
| Batching.SplitBatch | src/composables/useCanvasOptimization.js:380-393 | the slicing loop computes exactly `Chunks`: no batch for an empty category, one batch when it fits, consecutive slices of `maxBatchSize` otherwise |
| Batching.ChunksStep | src/composables/useCanvasOptimization.js:386-392 | one iteration cuts the slice from i to min(i + max, length) off the remainder |
| Batching.BatchElements | src/composables/useCanvasOptimization.js:344-397 | with batching off the list is returned as it is; otherwise it is sorted into the five buckets in table order and each is sliced, giving exactly `Batches` |
| Batching.FlattenAppend | src/composables/useCanvasOptimization.js:378-394 | reading the elements of two batch lists in turn is reading each list in turn |
| Batching.OfTypeAppend | src/composables/useCanvasOptimization.js:378-394 | selecting one category from two batch lists in turn is selecting it from each |
| Batching.ChunksFlatten | src/composables/useCanvasOptimization.js:380-393 | the slices of a category, read in order, give back the category |
| Batching.ChunksOfType | src/composables/useCanvasOptimization.js:383-391 | the slices of one category all carry that category |
| Batching.BatchesUnfold | src/composables/useCanvasOptimization.js:347-379 | the batches are the slices of lines, shapes, images, texts and other, in that order |
| Batching.BatchesInCons | src/composables/useCanvasOptimization.js:379 | the batches of a category table are the first category's slices followed by those of the rest |
| Batching.BucketsInEmpty | src/composables/useCanvasOptimization.js:354-375 | an empty render list fills no bucket |
| Batching.BatchesInFlatten | src/composables/useCanvasOptimization.js:379-394 | the batches, read in order, are the buckets one after the other |
| Batching.BatchesFlatten | src/composables/useCanvasOptimization.js:344-397 | the batches, read in order, are the lines, then the shapes, images, texts and other elements, each in render-list order |
| Batching.FlattenOfTypeAppend | src/composables/useCanvasOptimization.js:378-394 | the elements of one category in two batch lists are those of each list in turn |
| Batching.ChunksSelected | src/composables/useCanvasOptimization.js:380-393 | selecting a category from another category's slices gives nothing, and from its own slices gives the whole category |
| Batching.BatchesInOfType | src/composables/useCanvasOptimization.js:379-394 | in a table that lists each category once, the batches of one category hold exactly its bucket |
| Batching.BatchesOfType | src/composables/useCanvasOptimization.js:344-397 | joining the batches of one `batchType` gives exactly that category's entries, in render-list order |
| Batching.BucketsInSnoc | src/composables/useCanvasOptimization.js:354-375 | one more entry goes into the bucket of its own category and no other |
| Batching.BucketsPartition | src/composables/useCanvasOptimization.js:354-375 | every entry goes into exactly one bucket |
| Batching.PartitionStep | src/composables/useCanvasOptimization.js:354-375 | the partition survives one more entry |
| Batching.OrderCovers | src/composables/useCanvasOptimization.js:347-372 | the category table lists every category exactly once |
| Batching.BatchesConserve | src/composables/useCanvasOptimization.js:344-397 | batching neither loses nor duplicates an entry, so the count is preserved |
| RenderPipeline.RenderList | src/composables/useCanvasOptimization.js:308-341 | the render list is never longer than the input |
| RenderPipeline.CulledCount | src/composables/useCanvasOptimization.js:310-326 | `culledCount`: the number of elements that fail the frustum or the distance test; `RenderListAccounting` ties it to the render list |
| RenderPipeline.SimplifiedCount | src/composables/useCanvasOptimization.js:328-330 | the number of kept elements whose simplification bumps `simplifiedObjects`; `RenderListAccounting` ties it to the metrics |
| RenderPipeline.KeptIndices | src/composables/useCanvasOptimization.js:312-326 | the indices of the kept elements are indices of the input |
| RenderPipeline.MeasuredPrefix | src/composables/useCanvasOptimization.js:312 | every prefix of a measured input is measured |
| RenderPipeline.RenderListAccounting | src/composables/useCanvasOptimization.js:308-341 | output length plus culled count equals input length |
| RenderPipeline.KeptIndicesComplete | src/composables/useCanvasOptimization.js:312-326 | the kept indices ascend, and every element that passes both culling tests is among them |
| RenderPipeline.RenderListEntries | src/composables/useCanvasOptimization.js:328-336 | entry k of the render list is the simplified copy of the k-th kept element, with its level and distance |
| RenderPipeline.RenderListIsKeptInOrder | src/composables/useCanvasOptimization.js:308-341 | the render list is exactly the kept elements, in input order, each simplified at its own level and carrying `lodLevel` and `distance` |
| RenderPipeline.FarElementIsCulled | src/composables/useCanvasOptimization.js:320-326 | with distance culling on, an element whose squared centre distance exceeds the squared culling distance is culled |
| RenderPipeline.LodOffIsFullDetail | src/composables/useCanvasOptimization.js:104 | with level of detail off, every entry is the kept element itself at `high` |
| RenderPipeline.TakeFrom | src/composables/useCanvasOptimization.js:414-423 | `pop` yields an object exactly when the pool is known and non-empty; the object is the last one in the pool and it is removed; otherwise the pools are unchanged |
| RenderPipeline.PutInto | src/composables/useCanvasOptimization.js:426-437 | a known pool below `poolSize` gets the reset object at its end; otherwise the pools are unchanged |
| RenderPipeline.PutKeepsBound | src/composables/useCanvasOptimization.js:414-437 | neither taking nor returning ever grows a pool beyond `poolSize` |
| RenderPipeline.PoolRoundTrip | src/composables/useCanvasOptimization.js:414-437 | an object returned to a pool with room is the next one taken, reset, and the pools are as before |
| RenderPipeline.PoolTakeThenPut | src/composables/useCanvasOptimization.js:414-437 | taking an object and giving it back restores the pool, apart from the reset |
| RenderPipeline.TrimPool | src/composables/useCanvasOptimization.js:471-475 | a pool more than half full is cut to its first quarter-capacity objects; any other pool is unchanged |
| RenderPipeline.TrimPools | src/composables/useCanvasOptimization.js:471-475 | every pool is trimmed by the same rule and no pool is added or removed |
| RenderPipeline.TrimmedPools | src/composables/useCanvasOptimization.js:471-475 | after trimming every pool is at most half full and keeps its oldest objects, and trimming again changes nothing |
| RenderPipeline.TrimRegions | src/composables/useCanvasOptimization.js:466-468 | more than 50 dirty regions are cut to the last 20; fewer are kept as they are |
| RenderPipeline.AdjustedThresholds | src/composables/useCanvasOptimization.js:440-459 | `high` and `minimal` never change, and `medium` and `low` are scaled by the same factor, so their ratio is kept |
| RenderPipeline.AdjustedStaysInBand | src/composables/useCanvasOptimization.js:448-456 | because the gates are checked before the multiplication, `medium` can land just past 0.3 or 0.7 but never leaves [0.27, 0.77] |
| RenderPipeline.AdjustedDirection | src/composables/useCanvasOptimization.js:446-457 | slow frames never raise the thresholds and other frames never lower them; ordered thresholds stay ordered while `high` is at least 0.77 |
| RenderPipeline.RecordFrameConsistent | src/composables/useCanvasOptimization.js:492-502 | recording a frame keeps the statistics consistent (average = total / count, dropped <= count, total <= count * worst), so the average never exceeds the worst frame |
| RenderPipeline.CountSimplifications | src/composables/useCanvasOptimization.js:235-243 | the simplification counter grows by the number counted and consistency is unaffected |
| RenderPipeline.RecordCulled | src/composables/useCanvasOptimization.js:339 | `culledObjects` is overwritten with this pass's count, not accumulated |
| RenderPipeline.CountRenderCall | src/composables/useCanvasOptimization.js:523 | the render-call counter grows by one |
| RenderPipeline.CountSimplificationsAdd | src/composables/useCanvasOptimization.js:235-243 | counting a and then b simplifications is counting a + b |
| RenderPipeline.FramesPerSecond | src/composables/useCanvasOptimization.js:490 | `Math.round(1000 / delta)` is +Infinity exactly for a zero delta and otherwise within half a frame of 1000 / delta |
| RenderPipeline.PresetFor | src/composables/useCanvasOptimization.js:562-584 | `quality` turns the four switches off, any other name turns them on (an unknown name is `balanced`), and only `performance` is aggressive |
| RenderPipeline.Aggressive | src/composables/useCanvasOptimization.js:591-596 | the aggressive preset keeps the enabled flag and `high`, and keeps the factors positive |
| RenderPipeline.AggressiveMinimalStride | src/composables/useCanvasOptimization.js:591-596 | under the performance preset a stroke keeps every tenth pair at `minimal` and every third at `low` |
| RenderPipeline.MergeViewport | src/composables/useCanvasOptimization.js:539-541 | each of `x`, `y`, `width`, `height` and `scale` given in the patch replaces the current one, and each missing one keeps it |
| RenderPipeline.MergeLaws | src/composables/useCanvasOptimization.js:539-541 | an empty patch changes nothing, and merging the same patch twice is merging it once |
| CanvasOptimization.TrimEachPool | src/composables/useCanvasOptimization.js:471-475 | the loop over the pools computes exactly `TrimPools` |
| CanvasOptimization.CanvasOptimizer.constructor | src/composables/useCanvasOptimization.js:5-100 | the optimiser starts with the source's default configuration, empty statistics, five empty pools and no dirty regions |
| CanvasOptimization.CanvasOptimizer.ApplyLODSimplification | src/composables/useCanvasOptimization.js:224-270 | returns exactly `Simplify`, and changes nothing but the simplification counter, which grows by one only for a decimated line or a path with data |
| CanvasOptimization.CanvasOptimizer.OptimizeRenderList | src/composables/useCanvasOptimization.js:308-341 | returns exactly `RenderList`; the only state change is in the statistics: the simplification counter grows by the pass's count and `culledObjects` is set to the pass's culled count |
| CanvasOptimization.CanvasOptimizer.CalculateDirtyRegions | src/composables/useCanvasOptimization.js:400-411 | `null` exactly when dirty-region optimisation is off; otherwise the bounds of each changed element, in order |
| CanvasOptimization.CanvasOptimizer.GetPooledObject | src/composables/useCanvasOptimization.js:414-423 | nothing, and no change, when pooling is off; otherwise `TakeFrom` on the pools |
| CanvasOptimization.CanvasOptimizer.ReturnToPool | src/composables/useCanvasOptimization.js:426-437 | no change when pooling is off; otherwise `PutInto` on the pools, which stay within capacity |
| CanvasOptimization.CanvasOptimizer.AdjustQuality | src/composables/useCanvasOptimization.js:440-459 | no change when adaptive quality is off; otherwise only the thresholds change, to `AdjustedThresholds` |
| CanvasOptimization.CanvasOptimizer.PerformMemoryCleanup | src/composables/useCanvasOptimization.js:462-481 | no change when collection is off; otherwise the dirty regions and pools are trimmed, and the collector is called exactly when available and usage exceeds threshold times maximum |
| CanvasOptimization.CanvasOptimizer.UpdatePerformanceMetrics | src/composables/useCanvasOptimization.js:484-503 | the frame time becomes now minus the last reading, the fps and statistics are updated from it, the frame count grows by one, and the average stays at most the worst frame |
| CanvasOptimization.CanvasOptimizer.SampleMemory | src/composables/useCanvasOptimization.js:605-607 | only the memory usage changes, to the sample |
| CanvasOptimization.CanvasOptimizer.OptimizeCanvas | src/composables/useCanvasOptimization.js:506-536 | the result batches the render list, reports `[]` dirty regions (or `null` when off) and the distinct levels used, and its visible and culled counts add up to the element count; the state records viewport, counts, render time and one more render call |
| CanvasOptimization.CanvasOptimizer.RecordPass | src/composables/useCanvasOptimization.js:509-523 | the viewport, counts and render time are stored and the render-call counter grows by one |
| CanvasOptimization.CanvasOptimizer.AssembleResult | src/composables/useCanvasOptimization.js:517-535 | the result holds the batches, the dirty regions of no changed element, the distinct levels in first-use order and the pass counts |
| CanvasOptimization.CanvasOptimizer.UpdateViewport | src/composables/useCanvasOptimization.js:539-541 | only the viewport changes, to the merge of the patch into it |
| CanvasOptimization.CanvasOptimizer.SetPerformanceMode | src/composables/useCanvasOptimization.js:561-597 | the four switches take the preset's values, and the aggressive thresholds and factors are applied only for `performance`; nothing else changes |
| CanvasOptimization.CanvasOptimizer.PerformanceReport | src/composables/useCanvasOptimization.js:544-558 | the report copies the counters; the average frame time is non-negative and at most the worst once a frame is recorded, and dropped frames never exceed frames |
| Layers.Find | src/composables/useLayers.js:46 | the position of the first layer with the id, and the end of the list exactly when no layer has it |
| Layers.LayerById | src/composables/useLayers.js:27-29 | a layer is found exactly when some layer has the id, and it is a layer of the list with that id |
| Layers.LayerByElementId | src/composables/useLayers.js:32-34 | a layer is found exactly when some layer's element has the id, and it is that layer |
| Layers.SelectedLayers | src/composables/useLayers.js:82-84 | the selected layers are exactly the layers whose id is selected |
| Layers.ToggleMember | src/composables/useLayers.js:62-68 | the multi-select toggle never creates a duplicate, the id ends up selected exactly when it was not, and no other id changes membership |
| Layers.RemoveFirstKeepsOthers | src/composables/useLayers.js:63-65 | removing the first occurrence of an id keeps every other id |
| Layers.ToggleTwice | src/composables/useLayers.js:62-68 | toggling an id twice gives back the same selected ids, and the very same list when the id was not selected |
| Layers.Flip | src/composables/useLayers.js:97-110 | the toggle flips one flag of the first layer with the id and leaves every other layer as it was |
| Layers.FindStable | src/composables/useLayers.js:98-106 | changing layers without changing their ids does not move the lookup |
| Layers.FlipTwice | src/composables/useLayers.js:97-110 | toggling the same flag twice restores the layer list |
| Layers.FlipChangesOnlyTheFlag | src/composables/useLayers.js:97-110 | a toggle leaves the name, the element and the other flag of every layer as they were |
| Layers.Rename | src/composables/useLayers.js:113-119 | renaming changes only the first layer with the id |
| Layers.RenameThenLookup | src/composables/useLayers.js:113-119 | after a rename, the layer found by the id carries the new name both as its name and as its element's tag, and its element id and flags are unchanged |
| Layers.DeleteRemovesLayer | src/composables/useLayers.js:45-58 | deleting from a list with distinct ids removes that id completely and keeps every other layer |
| Layers.CreatedFrom | src/composables/useLayers.js:133-155 | each layer one sync loop creates belongs to one of its elements, one that had no layer, and carries that element's id |
| Layers.CreatedCovers | src/composables/useLayers.js:133-155 | each element with an id of its own that had no layer gets one |
| Layers.KeepIf | src/composables/useLayers.js:165 | the sync's filter never lengthens the list |
| Layers.KeepIfMembers | src/composables/useLayers.js:165 | the filter keeps exactly the layers whose id is one of the element ids |
| Layers.KeepIfAppend | src/composables/useLayers.js:165 | filtering two lists in turn is filtering each |
| Layers.Stage | src/composables/useLayers.js:133-137 | a sync loop only appends to the layer list |
| Layers.AfterAdds | src/composables/useLayers.js:130-155 | the four sync loops only append to the layer list |
| Layers.StageProperties | src/composables/useLayers.js:133-137 | a sync loop keeps every layer, adds only layers of its elements that had none, and adds one for each such element with an id of its own |
| Layers.AfterAddsProperties | src/composables/useLayers.js:130-155 | after the four loops, every new layer belongs to a passed element that had none, and every passed element with an id of its own has a layer |
| Layers.SyncProperties | src/composables/useLayers.js:129-166 | after the sync every layer has a passed element's id, every passed element with an id of its own has a layer, the kept old layers come first unchanged, and a new layer exists only for an element that had none |
| Layers.StageAt | src/composables/useLayers.js:133-137 | one sync loop step creates a layer exactly for an element whose id is not among the existing ones |
| Layers.StageStep | src/composables/useLayers.js:133-137 | the stage over a non-empty list is one element's step followed by the stage over the rest |
| Layers.LayerStore.constructor | src/composables/useLayers.js:1-9 | the store starts with no layers, no selection and no active layer |
| Layers.LayerStore.CreateLayer | src/composables/useLayers.js:11-24 | appends exactly one visible, unlocked layer, with the element's id when truthy (otherwise a fresh generated id) and the name given or `"<type> <count+1>"` |
| Layers.LayerStore.DeleteLayer | src/composables/useLayers.js:45-58 | an unknown id changes nothing; otherwise the layer is removed, its id leaves the selection and the active id is cleared when it matched |
| Layers.LayerStore.SelectLayer | src/composables/useLayers.js:61-73 | without multi-select the selection becomes exactly `[id]`; with it the id is toggled; in every case the id becomes active and the selection has no repeats |
| Layers.LayerStore.ClearSelection | src/composables/useLayers.js:76-79 | the selection is emptied and the active id cleared, the layers untouched |
| Layers.LayerStore.ToggleLayerVisibility | src/composables/useLayers.js:97-102 | the layers become `Flip` of the old ones on visibility; nothing else changes |
| Layers.LayerStore.ToggleLayerLock | src/composables/useLayers.js:105-110 | the layers become `Flip` of the old ones on the lock; nothing else changes |
| Layers.LayerStore.RenameLayer | src/composables/useLayers.js:113-119 | the layers become `Rename` of the old ones; nothing else changes |
| Layers.LayerStore.ClearLayers | src/composables/useLayers.js:122-126 | layers, selection and active id are all emptied |
| Layers.LayerStore.AddMissing | src/composables/useLayers.js:133-155 | one loop of the sync leaves exactly the layers and generator position of `Stage` |
| Layers.LayerStore.SyncLayersFromElements | src/composables/useLayers.js:129-166 | the layers become exactly `Synced` of the old ones; the selection and active id are untouched |
| Layers.SelectedElements | src/composables/useLayers.js:87-89 | every selected element is the element of a selected layer, and every selected layer's element is listed |
| Layers.SelectedMeansListed | src/composables/useLayers.js:82-94 | for an id some layer carries, `isLayerSelected` holds exactly when that layer is among the selected layers |
| Layers.PatchLaws | src/composables/useLayers.js:37-42 | `Object.assign` takes each field from the patch when present and keeps the layer's own otherwise; patching twice is patching once; an empty patch changes nothing |
| Layers.Update | src/composables/useLayers.js:37-42 | only the first layer with the id is patched, every other layer stays, and an unknown id changes nothing |
| Layers.UpdateKeepsIds | src/composables/useLayers.js:37-42 | a patch that does not set the id keeps every id and their distinctness, and looking the id up finds the patched layer |
| Layers.LayerStore.UpdateLayer | src/composables/useLayers.js:37-42 | the layers become the old list with the update applied; selection, active id and id generator stay |
| Layers.LayerStore.IsLayerSelected | src/composables/useLayers.js:92-94 | the answer is whether the id is selected, and for an id some layer carries, whether that layer is among the selected layers |
| Projects.FindProject | src/composables/useProjects.js:49 | the position of the first project with the id, and the end of the list exactly when no project has it |
| Projects.FindTab | src/composables/useProjects.js:123-144 | the position of the first open tab with the id, and the end exactly when no tab has it |
| Projects.CurrentProject | src/composables/useProjects.js:290-293 | no current project for an empty id; otherwise one is found exactly when a stored project has the id, and it is that project |
| Projects.Listed | src/composables/useProjects.js:296-298 | the exposed list is ordered newest update first and is a permutation of the stored projects |
| Projects.SaveNew | src/composables/useProjects.js:60-76 | a new save goes in front and the list is cut to 50, keeping the older projects in order |
| Projects.SaveNewIsCurrent | src/composables/useProjects.js:70-71 | right after a new save, the current project is the one just saved |
| Projects.Overwrite | src/composables/useProjects.js:48-58 | an update changes only the name, data and update time of the first project with the current id, and leaves every other project as it was |
| Projects.OverwriteUnknownStoresNothing | src/composables/useProjects.js:48-58 | saving while the current id names no stored project leaves the list unchanged |
| Projects.OpenTab | src/composables/useProjects.js:95-102 | a tab is added, saved and at the end, only when no tab has the id |
| Projects.CloseTab | src/composables/useProjects.js:123-125 | closing removes the first tab with the id and nothing else, and an unknown id changes nothing |
| Projects.OpenThenClose | src/composables/useProjects.js:95-125 | opening a project with no tab and closing it restores the tabs, and opening twice is opening once |
| Projects.CurrentAfterClose | src/composables/useProjects.js:127-134 | closing the current project passes the focus to the last remaining tab, or to none when no tab is left; any other current id stays |
| Projects.SetUnsaved | src/composables/useProjects.js:143-156 | marking sets the flag of the first tab with the id and changes nothing else |
| Projects.MarkLaws | src/composables/useProjects.js:143-156 | the last mark wins, and marking a saved tab unsaved then saved gives the tabs back |
| Projects.FindTabStable | src/composables/useProjects.js:144-152 | changing tab flags without changing ids does not move the lookup |
| Projects.ProjectStore.constructor | src/composables/useProjects.js:8-10 | the store starts with no projects, no current id and no open tabs |
| Projects.ProjectStore.SaveProject | src/composables/useProjects.js:42-87 | with a current id the list becomes `Overwrite`, otherwise `SaveNew` with a `project-<timestamp>` project that becomes current; the default name is "Project <locale time>"; the cap of 50 is kept; the current id is returned |
| Projects.ProjectStore.LoadProject | src/composables/useProjects.js:90-108 | a stored id becomes current, gets a tab when it had none and its data is returned; an unknown id changes nothing and returns nothing |
| Projects.ProjectStore.SwitchToProject | src/composables/useProjects.js:111-119 | like loading, but the tabs are never touched |
| Projects.ProjectStore.CloseProject | src/composables/useProjects.js:122-140 | returns true exactly when a tab had the id; the tabs become `CloseTab` and the current id `CurrentAfterClose` |
| Projects.ProjectStore.MarkUnsaved | src/composables/useProjects.js:143-148 | the tabs become `SetUnsaved(…, true)`; nothing else changes |
| Projects.ProjectStore.MarkSaved | src/composables/useProjects.js:151-156 | the tabs become `SetUnsaved(…, false)`; nothing else changes |
| Projects.ProjectStore.DeleteProject | src/composables/useProjects.js:159-174 | returns true exactly when a stored project had the id; that project is removed and the current id cleared when it was that project; the tabs stay |
| Projects.ProjectStore.RenameProject | src/composables/useProjects.js:177-187 | a stored project gets the new name and update time and true is returned; otherwise nothing changes |
| Projects.ProjectStore.UpdateThumbnail | src/composables/useProjects.js:212-220 | a stored project gets the thumbnail and true is returned; otherwise nothing changes |
| Projects.ProjectStore.DuplicateProject | src/composables/useProjects.js:190-209 | a copy named "<name> (Copy)" with the same data and thumbnail and fresh timestamps goes in front, with no cut to 50, and its id is returned |
| Projects.ProjectStore.CreateNewProject | src/composables/useProjects.js:272-287 | an unsaved "Untitled <n+1>" tab is appended and becomes current; the project list is not touched |
| Shapes.Capitalized | src/composables/useAdvancedShapes.js:68 | the tag's type name keeps its length and has only its first letter upper-cased |
| Shapes.BasicRectangleDefaults | src/composables/useAdvancedShapes.js:53-104 | with no options a rectangle is 100 by 100 with four square corners, transparent with a #2c2c2c stroke of width 2 and opacity 1, unrotated at scale 1, tagged "Rectangle <n+1>" |
| Shapes.BasicRoundDefaults | src/composables/useAdvancedShapes.js:105-111 | with no options a circle has radius 50 and an ellipse radii 60 and 40 |
| Shapes.BasicPolygonDefaults | src/composables/useAdvancedShapes.js:112-124 | a triangle always has 3 sides; with no options a polygon has 6 sides of radius 50 and a star 5 points between radii 20 and 50 |
| Shapes.ArchPath | src/composables/useAdvancedShapes.js:528-538 | the arch outline: the move to the bottom-left corner, the left side up to 40% of the height, the quadratic curve over 80% of the width, the line to the bottom-right corner and the close, one indented line each; its use is stated by `ArchitecturalOutlines` |
| Shapes.ColumnPath | src/composables/useAdvancedShapes.js:540-559 | the column outline of twelve indented lines and the close, around a shaft 30% as wide as the whole, a capital of 15% and a base of 10% of the height; its use is stated by `ArchitecturalOutlines` |
| Shapes.ArchitecturalTemplate | src/composables/useAdvancedShapes.js:179-304 | the object each entry of the template table returns, before options: arch and column as `path` shapes at 0, 0 with their outline, beam and foundation as `rect` shapes at their offsets, window and door as `group` shapes; its consequences are stated by `CreatedArchitectural`, `ArchitecturalOutlines` and `ArchitecturalBlocks` |
| Shapes.Assign | src/composables/useAdvancedShapes.js:147 | `Object.assign(shape, options)` on the fields a shape has here; its laws are `AssignLaws` |
| Shapes.CreatedArchitectural | src/composables/useAdvancedShapes.js:133-155 | a created architectural shape has the requested type and position whatever the options say, and the id the options give when they give one |
| Shapes.ArchitecturalOutlines | src/composables/useAdvancedShapes.js:528-559 | without path data among the options, the arch carries the outline of `generateArchPath` and the column that of `generateColumnPath` |
| Shapes.ArchitecturalBlocks | src/composables/useAdvancedShapes.js:209-239 | without a size among the options, the beam spans the requested width at height 20 and the foundation at height 15 |
| Shapes.AssignLaws | src/composables/useAdvancedShapes.js:147 | `Object.assign` takes every key the options have and keeps every other field; empty options change nothing, and assigning twice is assigning once |
| Shapes.PathData | src/composables/useAdvancedShapes.js:346-348 | no points give the empty path, one point only its move |
| Shapes.CountAppend | src/composables/useAdvancedShapes.js:346-348 | counting a letter in joined texts adds the counts |
| Shapes.PathDataCommands | src/composables/useAdvancedShapes.js:345-348 | the garden path text of n points starts with the move to the first point and holds one `M` and n - 1 `L` commands |
| Shapes.GardenTemplate | src/composables/useAdvancedShapes.js:307-525 | the object each garden template returns, before options: a `group` at the given position for bed, fountain and terrace, a `path` with the serialised points and the material colours, an `ellipse` pond, and a `group` greenhouse without a position; its consequences are stated by `GardenLaws` |
| Shapes.CreatedGarden | src/composables/useAdvancedShapes.js:157-176 | a created garden shape has the requested type whatever the options say |
| Shapes.GardenLaws | src/composables/useAdvancedShapes.js:345-392 | without the competing options, a garden path carries the serialised points and no position, a pond has half the width and height as radii, and the bed, pond, fountain and terrace sit at the given position; a position among the options wins |
| Shapes.MergeScale | src/composables/useAdvancedShapes.js:603-605 | each scale field given by the transform wins, each missing one keeps the shape's |
| Shapes.TransformLaws | src/composables/useAdvancedShapes.js:597-613 | only the given fields change, an empty transform is the identity, and a transform applied twice is applied once |
| Shapes.Transformed | src/composables/useAdvancedShapes.js:597-613 | `transformShape` on a copy: the given position and rotation overwrite, the given scale merges; its laws are `TransformLaws` |
| Shapes.IsPointInShape | src/composables/useAdvancedShapes.js:764-777 | the geometry of the hit test: the closed box of the scaled size for `rect`, the closed disc of the radius times the larger scale for `circle`, nothing for every other type; `HitTest` adds where the source throws |
| Shapes.HitTest | src/composables/useAdvancedShapes.js:764-777 | the hit test throws exactly when it reads the scale of a shape without one (every `circle`, and a `rect` once the point is not left of it), and otherwise answers the box-or-disc geometry of `IsPointInShape` |
| Shapes.OnlyRectAndCircleHit | src/composables/useAdvancedShapes.js:764-777 | a point can only be inside a shape of type `rect` or `circle` |
| Shapes.TemplatesNeverHit | src/composables/useAdvancedShapes.js:764-777 | the hit test never throws on a basic shape; it misses every basic rectangle and every architectural or garden shape whatever its options, since their types are not `rect` or `circle` |
| Shapes.BasicCircleHit | src/composables/useAdvancedShapes.js:769-773 | the hit test on a basic circle does not throw; it contains its centre exactly when its radius option is absent or non-negative, and exactly the points of the disc of its radius, or 50 when the radius is absent or 0 |
| Shapes.RectContainsCorners | src/composables/useAdvancedShapes.js:766-768 | a box of non-negative size contains its four corners |
| Shapes.InAreaTranslates | src/composables/useAdvancedShapes.js:743-751 | moving a shape and the area by the same offset keeps the answer |
| Shapes.ShapesInArea | src/composables/useAdvancedShapes.js:743-751 | the result holds exactly the shapes whose extent overlaps the area |
| Shapes.ShapesByType | src/composables/useAdvancedShapes.js:739-741 | the result holds exactly the shapes of the type |
| Shapes.FindShape | src/composables/useAdvancedShapes.js:714 | the position of the first shape with the id, and the end exactly when none has it |
| Shapes.ShapeById | src/composables/useAdvancedShapes.js:731 | a shape is found exactly when one has the id, and it has that id |
| Shapes.ShapesByIds | src/composables/useAdvancedShapes.js:734-736 | no more shapes than ids, each a stored shape with a requested id, and every requested id with a shape contributes it |
| Shapes.Duplicated | src/composables/useAdvancedShapes.js:699-711 | the copy differs from the shape only in a new id, a position 20 further right and down, and the tag "<tag> (Copy)" |
| Shapes.Pasted | src/composables/useAdvancedShapes.js:683-697 | the pasted copy differs only in id, position and tag, and lands at the given coordinates when they are truthy |
| Shapes.PasteWithoutPositionDuplicates | src/composables/useAdvancedShapes.js:683-711 | pasting without a position, or at 0, is duplicating |
| Shapes.WithoutShape | src/composables/useAdvancedShapes.js:713-720 | an unknown id leaves the list as it was, a known one shortens it by one |
| Shapes.DeleteRemovesShape | src/composables/useAdvancedShapes.js:713-720 | with unique ids, deleting removes exactly the shape with the id, keeps every other shape and keeps the ids unique |
| Shapes.ShapeStore.constructor | src/composables/useAdvancedShapes.js:5-8 | no shapes, no selection and an empty clipboard |
| Shapes.ShapeStore.CreateBasicShape | src/composables/useAdvancedShapes.js:53-130 | appends and returns `BasicShape` numbered by the shapes already there |
| Shapes.ShapeStore.CreateArchitecturalShape | src/composables/useAdvancedShapes.js:133-155 | one of the six template names appends and returns `CreatedArchitectural` (the template, then the options, then type, x and y reset); any other type that is not an `Object.prototype` name gives nothing and adds nothing |
| Shapes.ShapeStore.CreateGardenShape | src/composables/useAdvancedShapes.js:157-176 | one of the six garden template names appends and returns `CreatedGarden` (the template, then the options, then the type reset); any other type that is not an `Object.prototype` name gives nothing and adds nothing |
| Shapes.ShapeStore.CopyShape | src/composables/useAdvancedShapes.js:675-677 | the clipboard becomes the one shape |
| Shapes.ShapeStore.CopyShapes | src/composables/useAdvancedShapes.js:679-681 | the clipboard becomes the list |
| Shapes.ShapeStore.PasteShape | src/composables/useAdvancedShapes.js:683-697 | an empty clipboard gives nothing; otherwise `Pasted` of its first shape is appended and returned |
| Shapes.ShapeStore.DuplicateShape | src/composables/useAdvancedShapes.js:699-711 | `Duplicated` is appended and returned |
| Shapes.ShapeStore.DeleteShape | src/composables/useAdvancedShapes.js:713-720 | true exactly when a shape had the id; the list becomes `WithoutShape` |
| Shapes.ShapeStore.DeleteSelectedShapes | src/composables/useAdvancedShapes.js:722-727 | without a selection nothing is deleted; otherwise the selected id is deleted and the result says whether a shape had it |
| Shapes.ShapeStore.SelectShape | src/composables/useAdvancedShapes.js:730-732 | the selection becomes the first shape with the id, or nothing |
| Shapes.ShapeStore.GetShapeAtPoint | src/composables/useAdvancedShapes.js:753-762 | from the end of the list, the first shape the hit test accepts with every later shape missed, the `TypeError` of the first hit test that throws with every later shape missed, and `null` exactly when every hit test misses |
| CanvasElements.ItemIcon | src/composables/useCanvasElements.js:15-28 | `getItemIcon`: the icon literal of each of the eight categories and the seedling literal otherwise, with the code points the file holds (mis-encoded emoji); its law is `LookupDefaults` |
| CanvasElements.PlantColor | src/composables/useCanvasElements.js:30-43 | `getPlantColor`: the accent of each of the eight categories and `#65FF86` otherwise; its law is `LookupDefaults` |
| CanvasElements.LookupDefaults | src/composables/useCanvasElements.js:16-43 | an unknown category gets the seedling icon and `#65FF86`, and no known category gets either default |
| CanvasElements.RunEnd | src/composables/useCanvasElements.js:49 | the end of the maximal run of digits and dots starting at a position |
| CanvasElements.FirstNumChar | src/composables/useCanvasElements.js:49 | the first digit or dot, and the end when the text has none |
| CanvasElements.MatchSpacing | src/composables/useCanvasElements.js:49-50 | the pattern fails exactly when the text has no digit or dot; otherwise both groups are non-empty runs of digits and dots |
| CanvasElements.DigitRun | src/composables/useCanvasElements.js:52 | the number of leading digits: all of them digits, the next one not |
| CanvasElements.ParseSpacing | src/composables/useCanvasElements.js:46-50 | an empty or missing text and a text without a match give 1 metre (the planting module's `parsePlantSpacing` is the same function) |
| CanvasElements.RunEndAt | src/composables/useCanvasElements.js:49 | a run of digits and dots that stops at a position ends there |
| CanvasElements.SpacingSingle | src/composables/useCanvasElements.js:46-55 | `"a"` and `"am"` give the mean of `a` with itself, which is `a` when `a` is a number |
| CanvasElements.SpacingRange | src/composables/useCanvasElements.js:46-55 | `"a-bm"` gives the mean of `a` and `b` |
| CanvasElements.SpacingExample | src/composables/useCanvasElements.js:45-55 | `"8-15m"` gives 11.5 |
| CanvasElements.ParseEight | src/composables/useCanvasElements.js:52 | `parseFloat("8")` is 8 |
| CanvasElements.ParseFifteen | src/composables/useCanvasElements.js:53 | `parseFloat("15")` is 15 |
| CanvasElements.BrushFor | src/composables/useCanvasElements.js:58-71 | the stroke width is thickness/8 for marker, /12 for spray, /6 for calligraphy (with a square cap) and /10 with tension 0.5 and a round cap otherwise |
| CanvasElements.NewLine | src/composables/useCanvasElements.js:57-88 | a new line is the zero-length segment `[x, y, x, y]`, erases exactly for the eraser tool, takes the brush width and opacity/100, and is tagged "Eraser <n+1>" or "Brush <n+1>" |
| CanvasElements.UpdateLinePoints | src/composables/useCanvasElements.js:195-208 | only the points change, the old coordinates stay as a prefix, and exactly one pair is appended when the squared distance from the last pair exceeds 4 |
| CanvasElements.SpacedInvariant | src/composables/useCanvasElements.js:195-208 | a new line, and every line updates lead to, stores each pair after the opening two more than 2 units from the one before |
| CanvasElements.UpdateAtStartAddsNothing | src/composables/useCanvasElements.js:195-208 | a new line updated at its start point is unchanged |
| CanvasElements.NewShape | src/composables/useCanvasElements.js:93-147 | the shape `createShape` builds when `count` shapes exist; its law is `ShapeMapping` |
| CanvasElements.ShapeMapping | src/composables/useCanvasElements.js:93-147 | a square becomes a `rect`, rounded exactly for the rounded option; a circle becomes an `ellipse` exactly for the ellipse option and a `circle` otherwise; a triangle becomes a `right-triangle` exactly for the right option and is otherwise turned by 180; other tools give an untyped, untagged shape; the fill is the colour exactly for the filled option |
| CanvasElements.ListOr | src/composables/useCanvasElements.js:249-252 | the data's list when it is present and truthy, the empty list otherwise |
| CanvasElements.Loaded | src/composables/useCanvasElements.js:247-254 | no data changes nothing; otherwise each list becomes the data's list or empty |
| CanvasElements.LoadRoundTrip | src/composables/useCanvasElements.js:247-263 | loading what `getData` returned restores the same four lists, whatever was there before |
| CanvasElements.CanvasStore.constructor | src/composables/useCanvasElements.js:9-12 | the four lists start empty |
| CanvasElements.CanvasStore.CreateLine | src/composables/useCanvasElements.js:57-91 | appends and returns exactly `NewLine` numbered by the lines already there; nothing else changes |
| CanvasElements.CanvasStore.CreateShape | src/composables/useCanvasElements.js:93-147 | appends and returns exactly one new shape, numbered by the shapes already there; nothing else changes |
| CanvasElements.CanvasStore.ClearAll | src/composables/useCanvasElements.js:240-245 | all four lists are emptied |
| CanvasElements.CanvasStore.LoadData | src/composables/useCanvasElements.js:247-254 | the lists become `Loaded` of the old ones |
| CanvasElements.CanvasStore.GetData | src/composables/useCanvasElements.js:256-263 | the four lists as they are, and loading them into an empty store gives the same contents |
| CanvasElements.CanvasStore.CreateText | src/composables/useCanvasElements.js:149-165 | exactly one text element is appended to the texts; nothing else changes |
| CanvasElements.CanvasStore.CreatePlant | src/composables/useCanvasElements.js:167-193 | exactly one plant element is appended to the texts; nothing else changes |
| CanvasElements.NewText | src/composables/useCanvasElements.js:149-161 | the text element `createText` builds when `count` texts exist; its law is `NewTextLaws` |
| CanvasElements.NewPlant | src/composables/useCanvasElements.js:167-190 | the plant element `createPlant` builds, with the spacing parsed and halved into pixels; its laws are `NewPlantLaws` and `HalfPixelsLaws` |
| CanvasElements.NewTextLaws | src/composables/useCanvasElements.js:149-161 | a new text element is named "Text n" after the texts before it, shows the given text at the given position in the given colour and is draggable |
| CanvasElements.NewPlantLaws | src/composables/useCanvasElements.js:167-190 | a plant element carries the plant's name, icon, colour and id at the given position, is not draggable, keeps the parsed spacing and the matching spacing radius, which is half a metre's pixels without a spacing text |
| CanvasElements.HalfPixelsLaws | src/composables/useCanvasElements.js:169 | the spacing radius is a number exactly when the spacing is, and then twice the radius is the spacing in pixels |
| SmartPlanting.LevelIn | src/composables/useSmartPlanting.js:188-196 | a companion's level is non-zero only when the row lists it with that level, and 0 when the row does not list it |
| SmartPlanting.ToLowerIdempotent | src/composables/useSmartPlanting.js:182-183 | lower-casing twice is lower-casing once |
| SmartPlanting.Score | src/composables/useSmartPlanting.js:181-202 | `getCompatibilityScore` on the lower-cased names: the first name's row, then the second's, then neutral (3); its laws are `ScoreLaws` and `ScoreSymmetric` |
| SmartPlanting.ScoreLaws | src/composables/useSmartPlanting.js:181-202 | the score ignores letter case, takes the first name's row when it lists the second, then the second's row, and is neutral (3) otherwise |
| SmartPlanting.ScoreSymmetric | src/composables/useSmartPlanting.js:185-198 | over a table that never lists a pair with two different levels, the score does not depend on the order of the two plants |
| SmartPlanting.IsSunCompatible | src/composables/useSmartPlanting.js:437-445 | `isSunCompatible` as the table of the three light levels; its laws are `SunLaws` |
| SmartPlanting.SunLaws | src/composables/useSmartPlanting.js:437-445 | full takes full and partial, partial takes all three, shade takes partial and shade, any other requirement takes nothing; the relation is symmetric and never joins full with shade |
| SmartPlanting.IsZoneCompatible | src/composables/useSmartPlanting.js:472-475 | `isZoneCompatible`: zones at most 2 apart; its laws are `ZoneSymmetric` |
| SmartPlanting.ZoneSymmetric | src/composables/useSmartPlanting.js:472-475 | zone compatibility is symmetric and reflexive |
| SmartPlanting.CanPlantInSeason | src/composables/useSmartPlanting.js:464-469 | `canPlantInSeason`: no seasons, or the season listed and a falsy zone or a compatible one; its laws are `SeasonLaws` |
| SmartPlanting.SeasonLaws | src/composables/useSmartPlanting.js:464-469 | a plant without seasons can always be planted; one with seasons never outside them, and always inside them when it names no zone |
| SmartPlanting.NearbyPlants | src/composables/useSmartPlanting.js:264-269 | exactly the placed plants within the radius |
| SmartPlanting.Candidates | src/composables/useSmartPlanting.js:105-120 | exactly the row's companions of level good or better that are not already growing nearby |
| SmartPlanting.Suggestions | src/composables/useSmartPlanting.js:94-124 | none when suggestions are off or the plant has no row; otherwise the five best of the candidates (all of them when there are fewer), best first, drawn from the candidates, with every candidate left out rating no higher than every one kept; each a good-or-better companion from the plant's row not growing within 200 |
| SmartPlanting.TopFive | src/composables/useSmartPlanting.js:123 | `min(5, n)` entries sorted best first, a sub-multiset of the input, and every entry left out rates no higher than every entry kept |
| SmartPlanting.FewCandidatesAllSuggested | src/composables/useSmartPlanting.js:123 | with at most five candidates, every candidate is suggested |
| SmartPlanting.ConflictReason | src/composables/useSmartPlanting.js:205-217 | `getConflictReason`: the text for the pair in the first order, else in the second, else `Incompatible planting`; its law is `ConflictReasonSymmetric` |
| SmartPlanting.ConflictReasonSymmetric | src/composables/useSmartPlanting.js:205-217 | the conflict reason does not depend on the order of the two plants unless the table lists the pair both ways |
| SmartPlanting.Assess | src/composables/useSmartPlanting.js:150-178 | no more conflicts and benefits together than plants checked |
| SmartPlanting.AssessMembers | src/composables/useSmartPlanting.js:154-175 | the conflicts are exactly the plants nearer than 3 × the minimum distance scoring poor or worse, each with its reason; the benefits are exactly the near ones scoring good or better |
| SmartPlanting.ConflictsAndBenefitsDisjoint | src/composables/useSmartPlanting.js:161-173 | no plant is both a conflict and a benefit, and a neutral one is neither |
| SmartPlanting.CountKinds | src/composables/useSmartPlanting.js:568-570 | every counted type has a positive count |
| SmartPlanting.CountKindsLaws | src/composables/useSmartPlanting.js:568-579 | a type is counted exactly when a plant has it, its count is the number of plants of that type, and there are no more types than plants |
| SmartPlanting.KindsBound | src/composables/useSmartPlanting.js:579 | the number of distinct types is at most the number of plants |
| SmartPlanting.KindsSnoc | src/composables/useSmartPlanting.js:568 | one more plant adds its type to the types |
| SmartPlanting.CountOfAbsent | src/composables/useSmartPlanting.js:570 | a type no plant has counts 0 |
| SmartPlanting.ByTypeSumsToTotal | src/composables/useSmartPlanting.js:558-579 | the `plantsByType` counts, each type taken once, add up to `totalPlants` |
| SmartPlanting.SumOverIsSumCounts | src/composables/useSmartPlanting.js:570 | summing the map's counts is summing the per-type counts |
| SmartPlanting.CountsSumToTotal | src/composables/useSmartPlanting.js:568-570 | over distinct types covering every plant, the per-type counts add up to the number of plants |
| SmartPlanting.SumCountsNone | src/composables/useSmartPlanting.js:561 | with no plants every sum of counts is 0 |
| SmartPlanting.SumCountsSnoc | src/composables/useSmartPlanting.js:570 | one more plant adds one to a sum of distinct types' counts exactly when its type is among them |
| SmartPlanting.FindPlant | src/composables/useSmartPlanting.js:533-543 | the position of the first placed plant with the id, and the end exactly when none has it |
| SmartPlanting.Moved | src/composables/useSmartPlanting.js:542-550 | only the first plant with the id changes, and only in `x` and `y` |
| SmartPlanting.MoveLaws | src/composables/useSmartPlanting.js:542-550 | moving twice is moving once to the second place, and moving a plant to where it stands changes nothing |
| SmartPlanting.FindPlantStable | src/composables/useSmartPlanting.js:543 | lists with the same ids find an id at the same position |
| SmartPlanting.WithoutPlant | src/composables/useSmartPlanting.js:532-539 | an unknown id leaves the list, a known one removes the first plant with it |
| SmartPlanting.Garden.constructor | src/composables/useSmartPlanting.js:5-91 | no placed plants, the installed compatibility table, suggestions on and a minimum companion distance of 50 |
| SmartPlanting.Garden.AddPlant | src/composables/useSmartPlanting.js:517-529 | a copy with the new id, position, planting date and status `planted` is appended and returned |
| SmartPlanting.Garden.RemovePlant | src/composables/useSmartPlanting.js:532-539 | true exactly when a plant had the id; the list becomes `WithoutPlant` |
| SmartPlanting.Garden.UpdatePlantPosition | src/composables/useSmartPlanting.js:542-550 | true exactly when a plant had the id; the list becomes `Moved` |
| SmartPlanting.Garden.CompanionSuggestions | src/composables/useSmartPlanting.js:94-124 | the loop's result is exactly `Suggestions` of the garden's state, so it is the five best good-or-better companions not already growing nearby, best first |
| SmartPlanting.Garden.CheckPlantingCompatibility | src/composables/useSmartPlanting.js:150-178 | the loop's report is exactly `Assess` of the existing plants |
| SmartPlanting.Garden.GardenStatistics | src/composables/useSmartPlanting.js:558-582 | `totalPlants` is the number of plants, `plantsByType` is `CountKinds`, the yield is the sum of the truthy yields, and `diversityScore` is the number of distinct types, never above the total |
| SmartSnapping.Coord | src/composables/useSmartSnapping.js:266-267 | reading a line's coordinate list gives a value exactly when the index is inside the list (`undefined` otherwise) |
| SmartSnapping.SnapPoints | src/composables/useSmartSnapping.js:232-279 | a rectangle has nine snap points (four corners, four edge centres, one centre), a circle five (centre then four edges), a line three (two endpoints then the midpoint), any other type none |
| SmartSnapping.RectSnapPointsOnBox | src/composables/useSmartSnapping.js:240-252 | every snap point of a rectangle with non-negative size lies inside its box, and the ninth is the box's centre |
| SmartSnapping.CircleEdgesOnCircle | src/composables/useSmartSnapping.js:254-262 | a circle's first snap point is its centre and the other four lie exactly one radius from it |
| SmartSnapping.LineSnapPointsLaws | src/composables/useSmartSnapping.js:264-274 | a line's endpoints are its first and last coordinate pairs and its midpoint is halfway between them; with fewer than two coordinates no snap point has both coordinates |
| SmartSnapping.SquaredComparison | src/composables/useSmartSnapping.js:117-122 | for non-negative distances, comparing the distances is the same as comparing their squares |
| SmartSnapping.ScanLaws | src/composables/useSmartSnapping.js:105-129 | the search keeps the first candidate strictly inside the snap strength that no other candidate beats: every earlier one is strictly farther, no later one is strictly closer; it keeps nothing exactly when no candidate is strictly inside the strength |
| SmartSnapping.Nearest | src/composables/useSmartSnapping.js:105-144 | a snap point is chosen exactly when the strength is positive and some candidate lies strictly inside it; the chosen point is one of the candidates, lies inside the strength and is at least as close as every candidate with both coordinates |
| SmartSnapping.Candidates | src/composables/useSmartSnapping.js:111-116 | every candidate snap point belongs to a tracked object other than the excluded one |
| SmartSnapping.Added | src/composables/useSmartSnapping.js:457-476 | adding a value keeps the list's elements and adds the value once (length grows only when it was absent), and keeps a sorted duplicate-free list sorted and duplicate-free |
| SmartSnapping.AppendSortedNoDup | src/composables/useSmartSnapping.js:459-474 | appending an absent value to a duplicate-free list and sorting it leaves the result duplicate-free |
| SmartSnapping.Removed | src/composables/useSmartSnapping.js:464-483 | removing an absent value changes nothing; on a duplicate-free list it removes exactly that value; sortedness is kept |
| SmartSnapping.IncreasingUnique | src/composables/useSmartSnapping.js:457-483 | two strictly increasing lists with the same elements are equal, so each configuration list is determined by its set of values |
| SmartSnapping.AddThenRemove | src/composables/useSmartSnapping.js:457-483 | removing a value just added gives the list without it, and adding a value twice is adding it once |
| SmartSnapping.Snapper.constructor | src/composables/useSmartSnapping.js:3-40 | snapping and object snapping start on with strength 15, no tracked objects, an empty cache, no custom angles and the distances 0.5, 1, 2, 5 and 10 |
| SmartSnapping.Snapper.TrackObject | src/composables/useSmartSnapping.js:282-286 | an object is appended only when no tracked object has its id; nothing else changes and the snapper's invariant is kept |
| SmartSnapping.Snapper.UntrackObject | src/composables/useSmartSnapping.js:289-292 | every object with that id leaves the tracked list and its cache entry is dropped; nothing else changes and the invariant is kept |
| SmartSnapping.Snapper.UpdateTrackedObject | src/composables/useSmartSnapping.js:295-301 | the first object with the same id is replaced and its cache entry dropped; when no object has that id nothing changes; the invariant is kept |
| SmartSnapping.Snapper.GetObjectSnapPoints | src/composables/useSmartSnapping.js:232-279 | the cached points are returned when the id is cached, otherwise the computed ones, which are then cached; for a tracked object of a valid snapper the result is always its snap points |
| SmartSnapping.Snapper.SnapToObjectPoints | src/composables/useSmartSnapping.js:102-145 | with snapping and object snapping on, the result is the nearest candidate of the tracked objects other than the excluded one inside the snap strength, and the cache gains exactly the ids of those objects; otherwise the point comes back unchanged and the cache is untouched; the configuration is untouched |
| SmartSnapping.Snapper.AddCustomAngle | src/composables/useSmartSnapping.js:457-462 | the custom angles become the old list with the angle added in order; nothing else changes |
| SmartSnapping.Snapper.RemoveCustomAngle | src/composables/useSmartSnapping.js:464-469 | the custom angles become the old list with the angle removed; nothing else changes |
| SmartSnapping.Snapper.AddCustomMeasurement | src/composables/useSmartSnapping.js:471-476 | the distances become the old list with the distance added in order; nothing else changes |
| SmartSnapping.Snapper.RemoveCustomMeasurement | src/composables/useSmartSnapping.js:478-483 | the distances become the old list with the distance removed; nothing else changes |
| SmartSnapping.ScanPoints | src/composables/useSmartSnapping.js:116-128 | the inner loop over one object's snap points continues the search exactly as the search over all candidates seen so far followed by these ones |
| SmartSnapping.FoundAfterMiss | src/composables/useSmartSnapping.js:122-127 | a candidate that is not strictly closer than the current best leaves the chosen snap point as it was |
| SmartSnapping.NearestIsFound | src/composables/useSmartSnapping.js:105-144 | the loop's result and the declarative nearest snap point agree |
| SmartSnapping.ReplaceKeepsIds | src/composables/useSmartSnapping.js:296-298 | replacing a tracked object by one with the same id keeps the set of ids and their uniqueness |
| SmartSnapping.FilterKeepsUnique | src/composables/useSmartSnapping.js:290 | filtering a list of objects with unique ids keeps the ids unique |
| ToolAnalytics.Ids | src/composables/useToolUsageAnalytics.js:203 | the tool ids of a list of uses, one per use and in order |
| ToolAnalytics.Pattern | src/composables/useToolUsageAnalytics.js:200-204 | the current tool pattern is the ids of the last five session uses (all of them when fewer), in order |
| ToolAnalytics.Keys | src/composables/useToolUsageAnalytics.js:301-307 | the keys of a list of entries, one per entry and in order |
| ToolAnalytics.TallyLaws | src/composables/useToolUsageAnalytics.js:295-299 | a dictionary built by adding each weight to its key in turn holds each added key once, exactly the added keys, and under each key the sum of its weights |
| ToolAnalytics.ZeroTotalAbsent | src/composables/useToolUsageAnalytics.js:298 | a key never added has nothing summed under it |
| ToolAnalytics.Entries | src/composables/useToolUsageAnalytics.js:301 | `Object.entries` lists one key-value pair per key, in key order |
| ToolAnalytics.TallyEntries | src/composables/useToolUsageAnalytics.js:295-301 | the entries of a tally have distinct keys, exactly the added keys, each with the sum of its weights |
| ToolAnalytics.EntriesLaws | src/composables/useToolUsageAnalytics.js:301 | the keys of the entries are the key order itself and every entry carries its key's value |
| ToolAnalytics.Ones | src/composables/useToolUsageAnalytics.js:297-299 | one count of 1 per use, keyed by its tool id |
| ToolAnalytics.OnesTotal | src/composables/useToolUsageAnalytics.js:297-299 | the count summed for a tool is its number of uses |
| ToolAnalytics.OnesKeys | src/composables/useToolUsageAnalytics.js:297-299 | the keys counted are the tool ids of the uses, in order |
| ToolAnalytics.ByCountKeeps | src/composables/useToolUsageAnalytics.js:302 | sorting by count keeps every entry and key, keeps the keys distinct and orders the entries by non-increasing count |
| ToolAnalytics.ByCountLaws | src/composables/useToolUsageAnalytics.js:294-302 | the tools of the history by count: each tool once, every tool of the history present, each with its exact number of uses, by non-increasing count |
| ToolAnalytics.PrefixLaws | src/composables/useToolUsageAnalytics.js:303 | a prefix of a sorted list of distinct keys is at most the limit long, keeps the order and the distinct keys, and leaves out only entries weighing no more than any entry kept |
| ToolAnalytics.PrefixOrder | src/composables/useToolUsageAnalytics.js:303 | a prefix keeps the order and the distinct keys |
| ToolAnalytics.PrefixTop | src/composables/useToolUsageAnalytics.js:303 | an entry left out of a prefix weighs no more than any entry kept |
| ToolAnalytics.MostUsed | src/composables/useToolUsageAnalytics.js:294-305 | `getMostUsedTools(limit)`: the history's per-tool counts sorted by count and cut to `limit`; its laws are `MostUsedCounts` and `MostUsedOrder` |
| ToolAnalytics.MostUsedCounts | src/composables/useToolUsageAnalytics.js:294-305 | the most used tools are at most `limit`, each a tool of the history listed once with its exact number of uses |
| ToolAnalytics.MostUsedOrder | src/composables/useToolUsageAnalytics.js:294-305 | the most used tools come by non-increasing count, and a tool of the history left out is used no more often than any tool listed |
| ToolAnalytics.Analytics.MostUsedTools | src/composables/useToolUsageAnalytics.js:294-305 | the counting loop over the history gives exactly the specified most used tools |
| ToolAnalytics.TransitionsLaws | src/composables/useToolUsageAnalytics.js:116-143 | each session transition records three consecutive session tools whose last two differ, weighted 1; each history transition records three consecutive history tools, weighted 0.5 |
| ToolAnalytics.SessionLoop | src/composables/useToolUsageAnalytics.js:116-128 | the session loop records exactly the specified session transitions |
| ToolAnalytics.HistoryLoop | src/composables/useToolUsageAnalytics.js:131-143 | the history loop records exactly the specified history transitions |
| ToolAnalytics.NextFor | src/composables/useToolUsageAnalytics.js:150-153 | every entry of `toolTransitions[key]` comes from a recorded transition of that key |
| ToolAnalytics.NextForKeys | src/composables/useToolUsageAnalytics.js:150-153 | every key of `toolTransitions[key]` is the next tool of a recorded transition of that key |
| ToolAnalytics.TopKeys | src/composables/useToolUsageAnalytics.js:153-156 | the top keys are at most `n`, distinct, and keys of the tally |
| ToolAnalytics.TopKeysRanked | src/composables/useToolUsageAnalytics.js:153-156 | sort by weight then `slice(0, n)`: `n` keys, or all of them when there are fewer, and a key left out has in total no more weight than any key listed |
| ToolAnalytics.TransitionSuggestions | src/composables/useToolUsageAnalytics.js:145-160 | with a pattern of two or more tools, at most four distinct tools, each seen after the pattern's last two tools; with a shorter pattern none |
| ToolAnalytics.TransitionSuggestionsRanked | src/composables/useToolUsageAnalytics.js:150-156 | the transition suggestions are the top four successors of the last two tools: four, or every successor when there are fewer, and a successor left out weighs in total no more than any suggested |
| ToolAnalytics.WorkflowSuggestions | src/composables/useToolUsageAnalytics.js:228-253 | workflow suggestions come from text, brush, triangle, circle and move, and a pattern with text or eraser always suggests brush and move |
| ToolAnalytics.Pick | src/composables/useToolUsageAnalytics.js:166-169 | at most `n` distinct candidates, none excluded; a candidate that is not excluded is left out only when `n` are already listed |
| ToolAnalytics.SuggestedToolsLaws | src/composables/useToolUsageAnalytics.js:111-170 | the suggested tools are at most four distinct candidates outside the current pattern; a candidate outside the pattern is left out only when four are already listed |
| ToolAnalytics.SuggestedTools | src/composables/useToolUsageAnalytics.js:111-170 | `updateSuggestedTools`: the transition and workflow suggestions picked past the current pattern, at most four; its laws are `SuggestedToolsLaws` |
| ToolAnalytics.ComputeSuggestedTools | src/composables/useToolUsageAnalytics.js:111-170 | the two transition loops followed by the ranking give exactly the specified suggested tools |
| ToolAnalytics.ContextCandidates | src/composables/useToolUsageAnalytics.js:173-194 | the context candidates come from move, text, eraser and brush; a shape tool puts move first; with no shape, drawing or text tool and a short session there are none |
| ToolAnalytics.ContextAware | src/composables/useToolUsageAnalytics.js:173-197 | `updateContextAwareTools`: the first three distinct context candidates for the tools used and the session's duration; its laws are `ContextAwareLaws` and `ContextAwareFirst` |
| ToolAnalytics.ContextAwareLaws | src/composables/useToolUsageAnalytics.js:173-197 | the context-aware tools are at most three, distinct, all from move, text, eraser and brush |
| ToolAnalytics.ContextAwareFirst | src/composables/useToolUsageAnalytics.js:178-212 | once a shape tool was used move leads the context-aware tools, and an empty session under ten minutes gets none |
| ToolAnalytics.FirstThreeLaws | src/composables/useToolUsageAnalytics.js:196 | `[...new Set(c)].slice(0, 3)` is at most three distinct elements of `c`, led by `c`'s first element, and empty only for empty `c` |
| ToolAnalytics.RecentToolsAsWritten | src/composables/useToolUsageAnalytics.js:78-108 | the recent tools as written (recency term added) are at most six distinct tools, each used in the last hour; `AsWrittenPrefersOlder` shows the ranking it gives |
| ToolAnalytics.RecentTools | src/composables/useToolUsageAnalytics.js:78-108 | the recent tools (with the recency term corrected) are at most six distinct tools, each used in the last hour |
| ToolAnalytics.RankedRecentTop | src/composables/useToolUsageAnalytics.js:99-107 | for either score, the recent tools are the top six: six, or every tool of the last hour when there are fewer, and a tool of the last hour left out scores no higher than any tool listed |
| ToolAnalytics.RankedRecentKeys | src/composables/useToolUsageAnalytics.js:78-99 | the ranked recent entries are the distinct tools used in the last hour, each once |
| ToolAnalytics.AsWrittenPrefersOlder | src/composables/useToolUsageAnalytics.js:100-105 | as written, of two tools used equally often in the last hour the one used longer ago ranks first |
| ToolAnalytics.CorrectedPrefersRecent | src/composables/useToolUsageAnalytics.js:100-105 | with the recency term subtracted, of two tools used equally often the one used more recently ranks first |
| ToolAnalytics.UsesOfLaws | src/composables/useToolUsageAnalytics.js:257 | the uses of one tool are exactly the history's uses with that id, as many as its uses, and none exactly when the tool never occurs |
| ToolAnalytics.MaxTimestamp | src/composables/useToolUsageAnalytics.js:270 | the latest timestamp of a non-empty list of uses is one of their timestamps and no timestamp exceeds it |
| ToolAnalytics.Workflows | src/composables/useToolUsageAnalytics.js:275-279 | one count of 1 per use with a non-empty workflow, keyed by that workflow |
| ToolAnalytics.Favorite | src/composables/useToolUsageAnalytics.js:281-282 | the favourite is a key with the largest total, and none exactly when nothing was counted |
| ToolAnalytics.FavoriteLaws | src/composables/useToolUsageAnalytics.js:281-282 | the first entry after sorting by count exists exactly when something was counted, and its key has the largest total |
| ToolAnalytics.FirstIsLargest | src/composables/useToolUsageAnalytics.js:282 | the first entry of a list sorted by non-increasing total carries a key with the largest total |
| ToolAnalytics.FavoriteContext | src/composables/useToolUsageAnalytics.js:274-282 | the favourite context is a workflow seen most often among the uses, and none when no use names a workflow |
| ToolAnalytics.GetToolStats | src/composables/useToolUsageAnalytics.js:256-291 | a never-used tool gets the empty statistics; otherwise the total is its number of uses, the last use is its latest timestamp and the favourite context is taken from its uses |
| ToolAnalytics.WorkflowMetrics | src/composables/useToolUsageAnalytics.js:308-320 | the metrics give the session's duration, its number of uses and of distinct tools (never more than its uses, zero only for an empty session); an empty session has average 0 and efficiency 1, any other efficiency at least 1 |
| ToolAnalytics.UniqueLaws | src/composables/useToolUsageAnalytics.js:311 | the number of distinct tools is the size of the set of ids, no more than the number of uses, and zero only for no uses |
| ToolAnalytics.Efficiency | src/composables/useToolUsageAnalytics.js:318 | uses per distinct tool is at least 1 |
| ToolAnalytics.Analytics.constructor | src/composables/useToolUsageAnalytics.js:6-14 | the analytics start with an empty history, an empty session and context from the start time, analysed at that time |
| ToolAnalytics.Analytics.RecordToolUsage | src/composables/useToolUsageAnalytics.js:47-68 | the same use, stamped with the time, the session time so far and the previous session tool, is appended to both the session and the history, and the analytics are recomputed at that time |
| ToolAnalytics.Analytics.UpdateAnalytics | src/composables/useToolUsageAnalytics.js:71-75 | the derived lists are recomputed at the given time: from then on `Suggested`, `Recent` and `ContextAwareTools` are those of the state at that time |
| ToolAnalytics.Analytics.Suggested | src/composables/useToolUsageAnalytics.js:111-170 | `suggestedTools`: at most four distinct tools, none among the last five tools of the session |
| ToolAnalytics.Analytics.Recent | src/composables/useToolUsageAnalytics.js:78-108 | `recentTools` with the corrected ranking: at most six distinct tools, each used in the hour before the last recompute |
| ToolAnalytics.Analytics.ContextAwareTools | src/composables/useToolUsageAnalytics.js:173-197 | `contextAwareTools`: at most three distinct tools, each one of move, text, eraser and brush |
| ToolAnalytics.Analytics.ResetSession | src/composables/useToolUsageAnalytics.js:323-330 | the session starts again empty with an empty context at the given time, and the analytics are recomputed |
| ToolAnalytics.Analytics.UpdateContext | src/composables/useToolUsageAnalytics.js:333-338 | the given entries override the context's and every other entry stays |

## Left out

Environment and scheduling:

- Timers and the browser environment of the render optimiser: `setInterval`, `onMounted`/`onUnmounted`, `performance.now`, `performance.memory` and `window.gc`. The clock reading and the memory sample are parameters of the methods that read them.
- `stopPerformanceMonitoring` never stops the 5 s and 30 s intervals, because their handles are not kept. Since timers are not modelled, neither is this leak.
- localStorage persistence: saving and loading the project list (including the `QuotaExceededError` branch of `saveProjects`, `useProjects.js` lines 33-36, which rewrites the in-memory list to `projects.value.slice(-MAX_PROJECTS / 2)`; since new and duplicated projects are put at the front, that keeps the 25 oldest, although its comment says the oldest are removed), loading and saving analytics (with its 1000-event cut), and the project export and import through Blob, FileReader and URL. Stored state starts empty instead.
- Randomness and generated values:
  - the random reason `getCompatibilityReason` picks;
  - `generatePlantId` and the imported `generateElementId`;
  - the `new Date()` planting date.

  Ids and dates are parameters. Layers draw generated ids from a counter.
- `CANVAS_CONFIG.METER_TO_PIXELS` comes from `constants/tools.js`, which is not part of this model, so it is a parameter of `createPlant`.
- The Konva stage transform in `useCanvasInteraction.js` and the logger calls.

Numerics:

- Square roots are not computed; distances are compared squared. Where the optimiser needs a distance (the effective scale), it is given as a non-negative number whose square is the squared centre distance.
- Other float-only functions are not modelled:
  - areas, perimeters and `updateShapeMeasurements`;
  - the growth simulation and the location scoring in `useSmartPlanting.js`;
  - `updateShapeSize`;
  - angle snapping.
- All numbers are exact reals. Rounding of IEEE doubles is not modelled.

Broken or placeholder code, not modelled:

- grid snapping, `rotatePoint`, the second `snapToMeasurements` and `applyPreset` in `useSmartSnapping.js`, and the combined `snapPoint` that uses them;
- `performBooleanOperation`;
- all of `useAdvancedBrush.js`;
- `useSQLite.js`, `useBotanicalData.js` and `vite.config.js`.

`memoryConfig` is initialised with the undefined `value(...)`, so the source throws when it loads. The model gives it the record the source evidently intends.

`useSmartSnapping.js` declares `const snapToMeasurements` twice in one scope: the flag at line 9 and the function at line 187. That is an early `SyntaxError`, so the module as written never loads. `Snapper` models the evident intent: a module with both the flag and the function under separate names. The function itself is left out with the other snapping code above.

Modelling choices:

- JavaScript objects used as dictionaries become lists of keys in insertion order. Keys that look like array indices, which `Object.entries` would report first, are not treated specially.
- Names inherited from `Object.prototype` (such as `constructor`) would be found by the source's lookups in plain objects used as dictionaries. The model ignores them. These objects are the tool-default table, the companion table, the conflict texts, the icon and colour maps, the performance presets `modes[mode] || modes.balanced` (`useCanvasOptimization.js` line 584), the object pools `objectPools.value[type]` (`useCanvasOptimization.js` lines 417 and 429: `getPooledObject('constructor')` finds the function `Object`, whose `length` is 1, and throws a `TypeError` on `.pop()`, and `returnToPool('toString', o)` calls `o.reset()` and then throws on `pool.push`, while `TakeFrom` returns nothing and `PutInto` leaves the pools unchanged), the path material colour and stroke maps (`useAdvancedShapes.js` lines 569 and 580), the shape template tables `architecturalTemplates` and `gardenTemplates` (`useAdvancedShapes.js` lines 134-144 and 158-168: `createArchitecturalShape('constructor', x, y, w, h, opts)` finds the function `Object`, whose call returns `{}`, and so pushes and returns `{...opts, type: 'constructor', x, y}`, and `createGardenShape('constructor', p, o)` pushes `{...o, type: 'constructor'}`, while `CreateArchitecturalShape` and `CreateGardenShape` return nothing and add nothing), the sun table of `isSunCompatible` (`useSmartPlanting.js` line 444, where `compatibility["constructor"]?.includes` calls `includes` on a function and throws a `TypeError`, while `IsSunCompatible` is false), `toolStats`, `toolTransitions` and the per-key maps inside it, `toolCounts`, `contexts` and `plantsByType`. For such a name the source would, for example, count on a function instead of a number.
- `transformShape`, `updateLinePoints` and `renameLayer` mutate an object that the lists share. They are modelled as functions from the old shape, line or layer to the new one, so aliasing between that object and the lists is not captured.
- `Object.assign` in `updateLayer` copies only the fields the layer record has.
- The shape creators apply only the option keys that `ShapePatch` lists, which are the shape record's fields. Any other option key is dropped.
- A patch key whose value is `undefined`, or a number field that is `NaN`, is treated as absent by every patch function, so the old field is kept. The source does otherwise: `transformShape` tests `x !== undefined`, so `{x: NaN}` overwrites `x` with `NaN`; `Object.assign` in `updateLayer` and the object spreads in `updateViewport` and in `transformShape`'s scale merge copy a key whose value is `undefined`. This concerns `Shapes.MergeScale`, `Shapes.Transformed`, `Layers.Patched` and `RenderPipeline.MergeViewport`, and the members built on them (`Layers.Update`, `Layers.LayerStore.UpdateLayer`, `CanvasOptimization.CanvasOptimizer.UpdateViewport`).
- `ParseSpacing` models the regular expression with a hand-written matcher, and `parseFloat` with a decimal reader for digit-and-dot strings.

Weaker contracts and required preconditions:

- Shapes.ShapeStore.CreateArchitecturalShape: several template parts are not modelled:
  - the `rect` children of the window and door groups;
  - the foundation's `strokeDasharray`;
  - the arch and column `metadata`;
  - option keys outside `ShapePatch`.

  The template path text renders a missing number as `NaN`, where the source's template string prints `undefined`.
- Shapes.ShapeStore.CreateGardenShape: several template parts are not modelled:
  - the children of the bed, greenhouse, fountain and terrace groups;
  - the path's `lineCap` and `lineJoin`;
  - every template's `metadata`;
  - option keys outside `ShapePatch`.

  The kind, position, sizes, colours and path data are modelled.
- Common.ToLower: folds only the ASCII letters `A` to `Z`. JavaScript's `toLowerCase` also folds other letters: accented capitals, Greek and Cyrillic, and exotic characters such as the Kelvin sign U+212A, which becomes `k`. A plant name with such a letter can match a companion table row in the source but not in the model.
- Shapes.ShapeStore.CopyShape: the clipboard holds the shape itself, not a `JSON.parse(JSON.stringify(shape))` copy. The round trip turns a `NaN` or infinite number into `null` and drops keys whose value is `undefined`. The model merges `NaN` and `undefined` into one missing number, and `null` behaves differently: `null + 20` is 20. So after copying a shape whose `x` is `NaN`, `pasteShape(0, 0)` gives `x = 20` in the source, but `Pasted` gives `NaN`.
- Shapes.ShapeStore.CreateBasicShape: the shape record has no `draggable`, `visible`, `locked` or `metadata` field, so the `draggable: true`, `visible: true` and `locked: false` flags and the `metadata` record (the professional style options and the architectural measurements and constraints) that `createBasicShape` sets are not modelled.
- Shapes.ShapeStore.CopyShapes: the same JSON round trip per shape is not modelled, as for `CopyShape`.
- Shapes.Capitalized: upper-cases only the ASCII letters `a` to `z`. JavaScript's `toUpperCase` also maps other letters, and some change the length: `ß` becomes `SS`. A shape type starting with such a letter gets a different tag in the source.
- Layers.LayerStore.RenameLayer: `renameLayer` sets `tag` on `layer.element`, the same object that the canvas element lists hold. The model renames only the layer's own copy of the element, so the element lists keep the old tag.
- CanvasGeometry.ElementBounds: requires `WellFormed`, an even number of coordinates. With an odd count the source reads an `undefined` coordinate, and `Math.min`/`Math.max` make the bounds `NaN`. The same precondition is carried by every member that takes bounds, centres or simplified copies of elements:
  - in `CanvasGeometry`: `GetElementBounds`, `Center`, `CenterDistSq`, `IsInViewport` and the lemmas about them;
  - in `RenderPipeline`: `Kept`, `Entry`, `RenderList`, `CulledCount`, `SimplifiedCount` and `KeptIndices` (through `Measured`), and their lemmas;
  - in `LevelOfDetail`: `Reshaped`, `Simplify` and their lemmas;
  - in `CanvasOptimization.CanvasOptimizer`: `ApplyLODSimplification`, `OptimizeRenderList`, `OptimizeCanvas` and `CalculateDirtyRegions`.
- CanvasGeometry.GetElementBounds: requires `WellFormed`, as `ElementBounds` does.
- CanvasGeometry.IsInViewport: requires `WellFormed`, as `ElementBounds` does.
- RenderPipeline.RenderList: `Measured` requires every element to be `WellFormed`, as `ElementBounds` does.
- LevelOfDetail.Simplify: requires `WellFormed`, as `ElementBounds` does.
- CanvasOptimization.CanvasOptimizer.ApplyLODSimplification: requires `WellFormed`, as `ElementBounds` does.
- CanvasOptimization.CanvasOptimizer.CalculateDirtyRegions: requires every changed element to be `WellFormed`, as `ElementBounds` does.
- SmartPlanting.ScoreSymmetric: proved only for companion tables that never list a pair at two different levels. That the installed table meets this is not proved.
- CanvasOptimization.CanvasOptimizer.AssembleResult: requires `maxBatchSize` of at least 1. With 0 or less, the batching loop in the source never ends.
- LevelOfDetail.SimplifyPoints: requires a positive simplification factor and a list of pairs. Every configured factor is positive. An odd-length list reads `undefined` coordinates in the source.
- LevelOfDetail.Decimated: the same preconditions as `SimplifyPoints`.
- RenderPipeline.RenderList: requires positive simplification factors and a positive culling distance, as every preset provides, and so do its lemmas. `CanvasOptimizer` keeps these as part of its invariant; the source lets a caller store any values in its configuration refs.
- CanvasOptimization.CanvasOptimizer.UpdatePerformanceMetrics: requires the clock never to go backwards, as `performance.now()` guarantees.
- SmartSnapping.Snapper.SnapToObjectPoints: assumes the snapper's invariant, that every cached entry belongs to a tracked object and holds that object's snap points. The source can cache points of an untracked object, or keep stale points after a tracked object is changed in place, and then snap to points the model does not produce.
- SmartSnapping.Snapper.SnapToObjectPoints: the `currentSnap` record and the snap and alignment guides it sets are not modelled.
- ToolAnalytics.Analytics.UpdateAnalytics: the three derived lists are the functions `Suggested`, `Recent` and `ContextAwareTools` of the state and of the time of the last recompute, not stored copies. Every source mutation of the session or history ends with a recompute. `Recent` ranks with the corrected score `RecentTools`, not the source's `RecentToolsAsWritten` (see Findings). Where the two rankings differ, the model's `recentTools` is not the source's, but its contract (at most six distinct tools used in the last hour, the top six by the ranking's score, `RankedRecentTop`) holds for both.
- ToolAnalytics.Analytics.Recent: the corrected ranking, as above. The ranking the source computes is `RecentToolsAsWritten`.

## Findings

| source | as written | input that shows it | evidently intended | confidence | as-written member | corrected member |
|---|---|---|---|---|---|---|
| src/composables/useToolUsageAnalytics.js:100-105 | the recent-tools score is the count plus half the hours since the last use, so a tool used longer ago scores higher | two tools each used once in the last hour, one 50 minutes ago and one 1 minute ago: the older one is listed first | the comment says recent use should weigh more, so the hours since the last use should lower the score | not executed | ToolAnalytics.RecentToolsAsWritten, proved by ToolAnalytics.AsWrittenPrefersOlder | ToolAnalytics.RecentTools, proved by ToolAnalytics.CorrectedPrefersRecent |
