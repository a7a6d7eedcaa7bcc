# Virtual scrolling, view repeaters and virtual tables — a Dafny model

This project models the core of a virtual-scrolling prototype for Angular's component
development kit:

- **The variable-size scroll strategy and its directive.** The strategy keeps a table of
  item positions built from an item-size factory. It recomputes the rendered range from
  the scroll offset and the minimum and maximum buffers. It also reports the item at the
  top of the viewport and scrolls to an item.
  Files: `item_positions.dfy` (pure position logic) and `variable_size_strategy.dfy`
  (the strategy and directive classes over a viewport they mutate).
- **The view repeaters**, which apply an iterable differ's operations to a view container:
  - the recycling repeater, with its bounded template cache (`recycle_view_repeater.dfy`);
  - the list renderer's recycling strategy (`list_renderer.dfy`);
  - the disposing repeater (`dispose_view_repeater.dfy`).

  They share the container model of `view_container.dfy` and the change and event shapes of
  `view_repeater.dfy`.
- **The two virtual tables.**
  - `CdkVirtualTable` (`virtual_table.dfy`) records rendered ranges, shifts sticky header
    rows against the scrolled content and forwards data sources. Its renders are modelled
    with the `top` the source writes; the intended `top` is modelled beside it (see
    "## Findings").
  - The Material table (`mat_table.dfy`) renders a slice of its data, wraps its input in a
    data source and connects and disconnects sources in turn.

  Both measure rendered rows through `outlet_measure.dfy`.
- **The viewport controller of `virtual-scroll-service.ts`** (`virtual_scroll_service.dfy`).
  Only `rangesEqual` is live code in that file. The commented-out service is modelled as a
  state machine: setters, an `attach`/`detach` life cycle, and change detection batched into
  explicit flush steps.
- **The `openMenus` rule of `MenuAimProvider`** (`menu_aim.dfy`).

Where the source changes objects in place, the model has a class with the same fields.
Each method's `ensures` ties the new state to a pure function of the old state. The
properties the source promises are proved as lemmas about those functions: invariants
kept, idempotence, ordering, round trips and error cases.

One example of an informal expectation does not match the code; the model follows the
code. Take ten items of 20px, a 50px viewport, zero buffers and scroll offset 0. The
rendered range comes out as `{start: 0, end: 2}`, not `{start: 0, end: 3}`. The reason
is that `_getEndIndex` returns the index of the item under the end probe (item 2 at 50px),
not one past it.

## Model

| member | source | states |
|---|---|---|
| `ItemPositions.EndOfItemOffset` | src/cdk/scrolling/variable-size-virtual-scroll.ts:171-174 | the end of a stored item is its offset plus its size; a missing item counts as offset 0 and size 0 |
| `ItemPositions.Rebuilt` | src/cdk/scrolling/variable-size-virtual-scroll.ts:111-122 | the position table grows to the data length when shorter and keeps its length otherwise |
| `ItemPositions.RebuiltEntry` | src/cdk/scrolling/variable-size-virtual-scroll.ts:115-120 | after a rebuild, item `i` below the data length has the factory's size, and its offset is the previous item's end (0 for the first) |
| `ItemPositions.RebuiltKeepsTail` | src/cdk/scrolling/variable-size-virtual-scroll.ts:111-122 | entries at or past the data length are left as they were |
| `ItemPositions.RebuiltOffsetIsSizeSum` | src/cdk/scrolling/variable-size-virtual-scroll.ts:111-122 | after a rebuild, each item's offset is the sum of the factory sizes of the items before it |
| `ItemPositions.RebuiltTotalIsSizeSum` | src/cdk/scrolling/variable-size-virtual-scroll.ts:144-151 | the total content size after a rebuild is the sum of all item sizes |
| `ItemPositions.RebuiltIsConsistent` | src/cdk/scrolling/variable-size-virtual-scroll.ts:111-122 | a rebuilt table is consistent (each offset is the previous end), and its sizes are non-negative when the factory's are |
| `ItemPositions.OffsetsAdvance` | src/cdk/scrolling/variable-size-virtual-scroll.ts:111-122 | in a consistent table, an earlier item ends at or before a later item starts |
| `ItemPositions.OffsetsMonotone` | src/cdk/scrolling/variable-size-virtual-scroll.ts:144-151 | offsets are non-negative and non-decreasing, and no item ends after the last one |
| `ItemPositions.ScanFrom` | src/cdk/scrolling/variable-size-virtual-scroll.ts:176-184 | a scan from `i` returns the default when no item from `i` on covers the point, and otherwise the first item that covers it |
| `ItemPositions.IndexAtIntersection` | src/cdk/scrolling/variable-size-virtual-scroll.ts:176-184 | `_getItemIndexAtIntersection` returns the first item whose span contains the point, or the default when there is none |
| `ItemPositions.CoverIsUnique` | src/cdk/scrolling/variable-size-virtual-scroll.ts:176-184 | in a consistent table, at most one item covers any point |
| `ItemPositions.CoveredBelowTotal` | src/cdk/scrolling/variable-size-virtual-scroll.ts:176-184 | every point between 0 and the total content size is covered by some item |
| `ItemPositions.HitExactlyBelowTotal` | src/cdk/scrolling/variable-size-virtual-scroll.ts:176-184 | a point finds an item if and only if it lies in `[0, total)`; outside that the default is returned |
| `ItemPositions.IndexAtMonotone` | src/cdk/scrolling/variable-size-virtual-scroll.ts:176-184 | a lower point never finds a later item |
| `ItemPositions.RecomputedRange` | src/cdk/scrolling/variable-size-virtual-scroll.ts:153-169 | the recomputed range's start and end are both valid item indices |
| `ItemPositions.StartProbesOrdered` | src/cdk/scrolling/variable-size-virtual-scroll.ts:128-134 | the max-buffer probe of `_getStartIndex` finds an item no later than the min-buffer probe |
| `ItemPositions.StartIndex` | src/cdk/scrolling/variable-size-virtual-scroll.ts:128-134 | `_getStartIndex` keeps the current start while it lies between the max-buffer and the min-buffer probe, and otherwise jumps to the max-buffer probe |
| `ItemPositions.VisibleTopBelowTotal` | src/cdk/scrolling/variable-size-virtual-scroll.ts:128-130 | the item `_getStartIndex` finds at the scroll offset starts before the total content size, unless that size is 0 |
| `ItemPositions.StartProbeOrder` | src/cdk/scrolling/variable-size-virtual-scroll.ts:128-134 | with default 0, a lower probe finds an item no later than a higher probe that lies below the total size |
| `ItemPositions.EndProbeOrder` | src/cdk/scrolling/variable-size-virtual-scroll.ts:136-142 | with default `n - 1`, of two non-negative probes the lower one finds an item no later than the higher one |
| `ItemPositions.EndProbesOrdered` | src/cdk/scrolling/variable-size-virtual-scroll.ts:136-142 | the min-buffer probe of `_getEndIndex` finds an item no later than the max-buffer probe |
| `ItemPositions.EndIndex` | src/cdk/scrolling/variable-size-virtual-scroll.ts:136-142 | `_getEndIndex` keeps the current end while it lies between the min-buffer and the max-buffer probe, and otherwise jumps to the max-buffer probe |
| `ItemPositions.RecomputeIsIdempotent` | src/cdk/scrolling/variable-size-virtual-scroll.ts:153-169 | recomputing the range at an unchanged scroll offset keeps the range it just produced |
| `VariableSizeScroll.EmitIsDistinct` | src/cdk/scrolling/variable-size-virtual-scroll.ts:31-34 | `scrolledIndexChange` never emits the same index twice in a row, emits the new index unless completed, and re-emitting is a no-op |
| `VariableSizeScroll.Emit` | src/cdk/scrolling/variable-size-virtual-scroll.ts:31-34 | `scrolledIndexChange` only ever appends, at most one index per call, and an appended index is the one given |
| `VariableSizeScroll.ViewportHost.constructor` | src/cdk/scrolling/variable-size-virtual-scroll.ts:64-69 | a viewport starts with an empty rendered range, no content size and no scroll target |
| `VariableSizeScroll.VariableSizeVirtualScrollStrategy.constructor` | src/cdk/scrolling/variable-size-virtual-scroll.ts:39-43 | the strategy stores the factory and buffers, and starts detached with no positions |
| `VariableSizeScroll.VariableSizeVirtualScrollStrategy.UpdateItemSizeFactoryAndBuffers` | src/cdk/scrolling/variable-size-virtual-scroll.ts:45-52 | new factory and buffers; when attached, positions are rebuilt, the total content size is set and the range recomputed |
| `VariableSizeScroll.VariableSizeVirtualScrollStrategy.UpdateItemSize` | src/cdk/scrolling/variable-size-virtual-scroll.ts:54-58 | when attached, positions are rebuilt, the total size updated and the range recomputed; otherwise nothing changes |
| `VariableSizeScroll.VariableSizeVirtualScrollStrategy.Attach` | src/cdk/scrolling/variable-size-virtual-scroll.ts:64-69 | the viewport is stored, then positions, total size and range are refreshed |
| `VariableSizeScroll.VariableSizeVirtualScrollStrategy.Detach` | src/cdk/scrolling/variable-size-virtual-scroll.ts:72-75 | the scrolled-index stream completes and the viewport is dropped |
| `VariableSizeScroll.VariableSizeVirtualScrollStrategy.OnContentScrolled` | src/cdk/scrolling/variable-size-virtual-scroll.ts:82-84 | when attached, the rendered range and offset are recomputed and the first visible index emitted |
| `VariableSizeScroll.VariableSizeVirtualScrollStrategy.OnDataLengthChanged` | src/cdk/scrolling/variable-size-virtual-scroll.ts:87-91 | when attached, positions, total size and range are refreshed |
| `VariableSizeScroll.VariableSizeVirtualScrollStrategy.ScrollToIndex` | src/cdk/scrolling/variable-size-virtual-scroll.ts:101-105 | an attached viewport is asked to scroll to a known item's stored offset; an unknown index asks for nothing, and the viewport's range and sizes are untouched |
| `VariableSizeScroll.VariableSizeVirtualScrollStrategy.UpdateItemSizes` | src/cdk/scrolling/variable-size-virtual-scroll.ts:111-122 | the loop leaves exactly the rebuilt position table |
| `VariableSizeScroll.VariableSizeVirtualScrollStrategy.UpdateTotalContentSize` | src/cdk/scrolling/variable-size-virtual-scroll.ts:144-151 | the viewport's total content size becomes the end of the last item |
| `VariableSizeScroll.VariableSizeVirtualScrollStrategy.UpdateRenderedRange` | src/cdk/scrolling/variable-size-virtual-scroll.ts:153-169 | the viewport gets the recomputed range and the start item's offset; the start index is emitted |
| `VariableSizeScroll.VariableSizeVirtualScrollStrategy.GetItemIndexAtIntersection` | src/cdk/scrolling/variable-size-virtual-scroll.ts:176-184 | the loop returns the first covering item, or the default |
| `VariableSizeScroll.CdkVariableSizeVirtualScroll.constructor` | src/cdk/scrolling/variable-size-virtual-scroll.ts:212-232 | the directive defaults: every item 10px, buffers 100 and 200, and a strategy built from them |
| `VariableSizeScroll.CdkVariableSizeVirtualScroll.NgOnChanges` | src/cdk/scrolling/variable-size-virtual-scroll.ts:234-237 | the directive's factory and buffers are pushed into the strategy; when attached it refreshes and the viewport's data length, size, scroll offset and scroll target are untouched; when detached the positions and emitted indices are unchanged |
| `VariableSizeScroll.CdkVariableSizeVirtualScroll.MarkItemSizeDirty` | src/cdk/scrolling/variable-size-virtual-scroll.ts:239-241 | the strategy keeps its factory and buffers; when attached it refreshes and the viewport's data length, size, scroll offset and scroll target are untouched; when detached the positions and emitted indices are unchanged |
| `ViewContainers.InsertAt` | src/cdk/view/recycle-view-repeater-strategy.ts:90 | inserting at `i` puts the view at `i` and shifts the later views by one |
| `ViewContainers.RemoveAt` | src/cdk/view/recycle-view-repeater-strategy.ts:143-145 | removing at `i` closes the gap and keeps the order of the others |
| `ViewContainers.FirstIndex` | src/cdk-experimental/menu-aim/menu-aim-provider.ts:36 | `indexOf` is -1 if and only if the element is absent; otherwise it is the first position holding it |
| `ViewContainers.InsertAtMultiset` | src/cdk/view/recycle-view-repeater-strategy.ts:90 | an insertion adds exactly the inserted view |
| `ViewContainers.RemoveAtMultiset` | src/cdk/view/recycle-view-repeater-strategy.ts:143-145 | a removal takes out exactly the removed view |
| `ViewContainers.ContainerMoveKeepsViews` | src/cdk/view/recycle-view-repeater-strategy.ts:105-110 | a move keeps the same views and puts the moved one at the target index |
| `ViewContainers.WithEmbeddedView` | src/cdk/view/recycle-view-repeater-strategy.ts:93-95 | a created view gets a fresh id, is placed at the requested index (or last), and carries the given context |
| `ViewContainers.ViewContainer.constructor` | src/cdk/view/recycle-view-repeater-strategy.ts:41-45 | a container starts empty |
| `ViewContainers.ViewContainer.Get` | src/cdk/view/recycle-view-repeater-strategy.ts:106-107 | `get` returns the view at an index, or nothing outside the container |
| `ViewContainers.ViewContainer.IndexOf` | src/cdk/view/recycle-view-repeater-strategy.ts:120 | `indexOf` returns the first position of the view, or -1 |
| `ViewContainers.ViewContainer.Insert` | src/cdk/view/recycle-view-repeater-strategy.ts:90 | `insert` places a view at an index |
| `ViewContainers.ViewContainer.Detach` | src/cdk/view/recycle-view-repeater-strategy.ts:143-145 | `detach` returns the view at an index and removes it without destroying it |
| `ViewContainers.ViewContainer.Remove` | src/cdk/view/recycle-view-repeater-strategy.ts:128 | `remove` takes out and destroys the view at an index |
| `ViewContainers.ViewContainer.Move` | src/cdk/view/recycle-view-repeater-strategy.ts:108 | `move` puts a view at the target index |
| `ViewContainers.ViewContainer.CreateEmbeddedView` | src/cdk/view/recycle-view-repeater-strategy.ts:93-95 | `createEmbeddedView` adds a fresh view with the given context |
| `ViewContainers.ViewContainer.DestroyView` | src/cdk/view/recycle-view-repeater-strategy.ts:126 | `view.destroy()` marks only that view destroyed |
| `ViewContainers.ViewContainer.SetImplicit` | src/cdk/view/recycle-view-repeater-strategy.ts:57 | assigning `$implicit` changes only that view's context |
| `ViewRepeater.Notify` | src/cdk/view/recycle-view-repeater-strategy.ts:70-72 | the change callback is called once with the event when given, and not at all otherwise |
| `ViewRepeater.ReportsEachExtend` | src/cdk/view/recycle-view-repeater-strategy.ts:47-73 | one more change reported after the earlier ones keeps the log one event per change, in order |
| `RecycleViewRepeater.AllFitPrefix` | src/cdk/view/recycle-view-repeater-strategy.ts:47-73 | if every operation of a batch fits the container, so does every operation of any prefix |
| `RecycleViewRepeater.ApplyAllStep` | src/cdk/view/recycle-view-repeater-strategy.ts:47-73 | folding one more operation over a batch prefix that fits applies that operation to the state the prefix left, and the operation fits that state |
| `RecycleViewRepeater.ViewInserted` | src/cdk/view/recycle-view-repeater-strategy.ts:86-96 | `_insertView`: the newest cached view is popped and inserted, or a view is created from the factory's arguments (stated by `InsertReusesNewestCachedView`) |
| `RecycleViewRepeater.ViewMaybeCached` | src/cdk/view/recycle-view-repeater-strategy.ts:116-131 | `_maybeCacheView`: cached when there is room; otherwise destroyed, through the container when it holds the view (stated by `RemoveWithFullCacheDestroys`) |
| `RecycleViewRepeater.ViewDetachedAndCached` | src/cdk/view/recycle-view-repeater-strategy.ts:99-102 | `_detachAndCacheView`: the view at the index is detached, then cached or destroyed (stated by `DetachedViewIsGone`) |
| `RecycleViewRepeater.ViewMoved` | src/cdk/view/recycle-view-repeater-strategy.ts:105-110 | `_moveView`: the view at the previous index is moved to the current one (stated by `MoveKeepsViews`) |
| `RecycleViewRepeater.ApplyChange` | src/cdk/view/recycle-view-repeater-strategy.ts:47-73 | one operation of `applyChanges` with its event (stated by `ApplyChangeKeepsTracked` and `ApplyChangeNotifies`) |
| `RecycleViewRepeater.ApplyAll` | src/cdk/view/recycle-view-repeater-strategy.ts:41-74 | `applyChanges` as the fold of its operations (stated by `ApplyAllKeepsTracked`, `ApplyAllBoundsCache`, `ApplyAllLength` and `ApplyAllNotifiesEachChange`) |
| `RecycleViewRepeater.DetachedViewIsGone` | src/cdk/view/recycle-view-repeater-strategy.ts:99-102 | a detached view is in neither the container nor the cache before it is cached |
| `RecycleViewRepeater.RemoveWithFullCacheDestroys` | src/cdk/view/recycle-view-repeater-strategy.ts:116-131 | with a full cache, a removed item's view, already detached and so not in the container (`indexOf` gives -1), is destroyed on its own; the container is as after removing that index, and the cache is unchanged |
| `ViewContainers.TrackedSameLive` | src/cdk/view/recycle-view-repeater-strategy.ts:38 | moving views between container and cache keeps them tracked |
| `ViewContainers.TrackedAfterCreate` | src/cdk/view/recycle-view-repeater-strategy.ts:93-95 | creating a fresh view keeps every view tracked |
| `ViewContainers.TrackedAfterDestroy` | src/cdk/view/recycle-view-repeater-strategy.ts:125-129 | destroying a live view keeps every view tracked |
| `RecycleViewRepeater.InsertKeepsTracked` | src/cdk/view/recycle-view-repeater-strategy.ts:52-59 | an added item keeps every view in exactly one place, and destroyed views nowhere |
| `RecycleViewRepeater.RemoveKeepsTracked` | src/cdk/view/recycle-view-repeater-strategy.ts:60-62 | a removed item keeps every view tracked |
| `RecycleViewRepeater.MoveKeepsTracked` | src/cdk/view/recycle-view-repeater-strategy.ts:63-67 | a moved item keeps every view tracked |
| `RecycleViewRepeater.ApplyChangeKeepsTracked` | src/cdk/view/recycle-view-repeater-strategy.ts:47-73 | each operation keeps every view tracked |
| `RecycleViewRepeater.ApplyAllKeepsTracked` | src/cdk/view/recycle-view-repeater-strategy.ts:41-74 | `applyChanges` never leaves a view twice in container and cache, and never keeps a destroyed view |
| `RecycleViewRepeater.ApplyAllBoundsCache` | src/cdk/view/recycle-view-repeater-strategy.ts:116-118 | the template cache never grows past `templateCacheSize` |
| `RecycleViewRepeater.ApplyAllLength` | src/cdk/view/recycle-view-repeater-strategy.ts:41-74 | the container grows by one per added item and shrinks by one per removed item |
| `RecycleViewRepeater.ApplyAllNotifiesEachChange` | src/cdk/view/recycle-view-repeater-strategy.ts:70-72 | with a callback there is one event per operation, in order, naming its operation and record; without one there are none |
| `RecycleViewRepeater.ApplyChangeNotifies` | src/cdk/view/recycle-view-repeater-strategy.ts:50-72 | with a callback, one operation appends exactly one event naming its operation and record; without one the log is unchanged |
| `RecycleViewRepeater.InsertReusesNewestCachedView` | src/cdk/view/recycle-view-repeater-strategy.ts:86-96 | an added item reuses the most recently cached view when there is one and creates a view only otherwise; the view gets the resolved value |
| `RecycleViewRepeater.MoveKeepsViews` | src/cdk/view/recycle-view-repeater-strategy.ts:63-67 | a moved item keeps its own view, now at the current index with the resolved value, and the cache is untouched |
| `RecycleViewRepeater.DetachLeavesDestroyedViewsCached` | src/cdk/view/recycle-view-repeater-strategy.ts:76-80 | `detach` destroys the cached views but leaves them cached, so a later insert would reuse a destroyed view |
| `RecycleViewRepeater.RecycleViewRepeaterStrategy.constructor` | src/cdk/view/recycle-view-repeater-strategy.ts:31 | the cache holds up to 50 views and starts empty |
| `RecycleViewRepeater.RecycleViewRepeaterStrategy.ApplyChanges` | src/cdk/view/recycle-view-repeater-strategy.ts:41-74 | the loop leaves the cache, the container and the events given by the fold of all operations |
| `RecycleViewRepeater.RecycleViewRepeaterStrategy.ApplyOne` | src/cdk/view/recycle-view-repeater-strategy.ts:47-73 | one loop iteration leaves the cache, the container and the events given by applying that single operation to the old state |
| `RecycleViewRepeater.RecycleViewRepeaterStrategy.Detach` | src/cdk/view/recycle-view-repeater-strategy.ts:76-80 | every cached view is destroyed, and the cache is kept |
| `RecycleViewRepeater.RecycleViewRepeaterStrategy.InsertView` | src/cdk/view/recycle-view-repeater-strategy.ts:86-96 | pops and inserts the newest cached view, or creates one from the context factory |
| `RecycleViewRepeater.RecycleViewRepeaterStrategy.DetachAndCacheView` | src/cdk/view/recycle-view-repeater-strategy.ts:99-102 | detaches the view at the index, then caches or destroys it |
| `RecycleViewRepeater.RecycleViewRepeaterStrategy.MoveView` | src/cdk/view/recycle-view-repeater-strategy.ts:105-110 | moves the view at the previous index to the current index and returns it |
| `RecycleViewRepeater.RecycleViewRepeaterStrategy.MaybeCacheView` | src/cdk/view/recycle-view-repeater-strategy.ts:116-131 | caches the view when there is room; otherwise removes it from the container or, if absent, destroys it on its own |
| `RecycleViewRepeater.RecycleViewRepeaterStrategy.GetCachedView` | src/cdk/view/recycle-view-repeater-strategy.ts:134-140 | with an empty cache returns nothing and changes nothing; otherwise pops the newest view and inserts it at the index |
| `ListRenderer.ApplyIdentityChanges` | src/cdk/scrolling/list_renderer.ts:61-65 | the identity pass changes only contexts, never which views are where |
| `ListRenderer.IdentityChangesSetItems` | src/cdk/scrolling/list_renderer.ts:61-65 | after the identity pass, the view at each listed index renders that record's item, and other views keep their contexts |
| `ListRenderer.DistinctIndicesDistinctViews` | src/cdk/scrolling/list_renderer.ts:62-63 | in a tracked container, different indices hold different views |
| `ListRenderer.RecycleRendererStrategy.constructor` | src/cdk/scrolling/list_renderer.ts:27 | the cache holds up to 20 views and starts empty |
| `ListRenderer.RecycleRendererStrategy.ApplyChanges` | src/cdk/scrolling/list_renderer.ts:37-78 | the operations, then the identity pass, then one context-changed call with the final container |
| `ListRenderer.RecycleRendererStrategy.ApplyOne` | src/cdk/scrolling/list_renderer.ts:41-58 | one operation leaves the cache and the container given by applying that operation to the old ones |
| `ListRenderer.RecycleRendererStrategy.CacheView` | src/cdk/scrolling/list_renderer.ts:81-96 | caches the view when there is room, otherwise destroys it |
| `ListRenderer.RecycleRendererStrategy.InsertViewForNewItem` | src/cdk/scrolling/list_renderer.ts:99-101 | a cached view when there is one, otherwise the item factory's view at the index |
| `ListRenderer.RecycleRendererStrategy.InsertViewFromCache` | src/cdk/scrolling/list_renderer.ts:104-110 | with an empty cache returns nothing and changes nothing; otherwise pops and inserts the newest cached view |
| `ListRenderer.RecycleRendererStrategy.DetachView` | src/cdk/scrolling/list_renderer.ts:113-115 | returns the view at the index and removes it from the container |
| `DisposeViewRepeater.AllFitPrefix` | src/cdk/view/dispose-view-repeater-strategy.ts:27-54 | if a batch fits the container, so does any prefix of it |
| `DisposeViewRepeater.ApplyChange` | src/cdk/view/dispose-view-repeater-strategy.ts:33-45 | one operation of `applyChanges` with its event (stated by `ApplyChangeEffects` and `ApplyChangeKeepsTracked`) |
| `DisposeViewRepeater.ApplyAll` | src/cdk/view/dispose-view-repeater-strategy.ts:22-55 | `applyChanges` as the fold of its operations (stated by `ApplyAllCreatesOnePerInsert` and `ApplyAllNotifiesEachChange`) |
| `DisposeViewRepeater.ApplyChangeKeepsTracked` | src/cdk/view/dispose-view-repeater-strategy.ts:33-45 | each operation keeps the container free of duplicates and destroyed views |
| `DisposeViewRepeater.ApplyAllCreatesOnePerInsert` | src/cdk/view/dispose-view-repeater-strategy.ts:22-55 | `applyChanges` keeps views tracked, creates exactly one view per added item and never reuses one, changes the length by items added minus items removed, and never revives a destroyed view |
| `DisposeViewRepeater.ApplyChangeEffects` | src/cdk/view/dispose-view-repeater-strategy.ts:33-45 | an insert creates a fresh view where the context factory says, with its context; a removal destroys exactly the removed view; a move keeps the views and puts the moved one at the current index |
| `DisposeViewRepeater.ApplyAllNotifiesEachChange` | src/cdk/view/dispose-view-repeater-strategy.ts:47-53 | with a callback there is one event per operation, in order; without one there are none |
| `DisposeViewRepeater.DisposeViewRepeaterStrategy.ApplyChanges` | src/cdk/view/dispose-view-repeater-strategy.ts:22-55 | the loop leaves the container and events given by the fold of all operations |
| `OutletMeasure.RangeSumSplit` | src/cdk-experimental/virtual-table/virtual-table.ts:223-235 | the summed size of a range of views splits at any midpoint |
| `OutletMeasure.GetSize` | src/cdk-experimental/virtual-table/virtual-table.ts:239-246 | `getSize`: an element's width or height along the orientation, 0 for any other node (stated by `ViewSizeNonNegative`) |
| `OutletMeasure.RangeSum` | src/cdk-experimental/virtual-table/virtual-table.ts:223-235 | the sizes of the views at outlet positions `[lo, hi)`, a missing view counting 0 (stated by `RangeSumSplit` and `RangeSumMonotone`) |
| `OutletMeasure.ViewSizeNonNegative` | src/cdk-experimental/virtual-table/virtual-table.ts:239-246 | a view whose root nodes have non-negative boxes has a non-negative size |
| `OutletMeasure.RangeSumMonotone` | src/cdk-experimental/virtual-table/virtual-table.ts:223-235 | with non-negative boxes, widening the range never shrinks its size |
| `OutletMeasure.GetOutletSize` | src/cdk-experimental/virtual-table/virtual-table.ts:223-235 | the two count-down loops sum the sizes of every root node of the views in `[start, start + length)`; a missing view counts 0 |
| `OutletMeasure.MeasureRangeSize` | src/cdk-experimental/virtual-table/virtual-table.ts:205-218 | an empty or reversed range measures 0; it fails if and only if the range is non-empty and leaves the rendered range (or there is none); otherwise it is the outlet sum from `start - renderedStart` |
| `OutletMeasure.MeasureRangeSizeIsAdditive` | src/material/table/table.ts:174-192 | two adjacent rendered ranges measure the sum of their sizes |
| `OutletMeasure.MeasureRangeSizeIsMonotone` | src/material/table/table.ts:174-192 | with non-negative boxes, a longer rendered range measures at least as much |
| `OutletMeasure.Measure` | src/material/table/table.ts:197-209 | the imperative measurement agrees with the measuring function |
| `VirtualTable.WrittenTop` | src/cdk-experimental/virtual-table/virtual-table.ts:178 | the `-${offset}px` template gives a length exactly when the shift is not negative, and that length is minus the shift; a negative or NaN shift gives no length |
| `VirtualTable.ShiftedTop` | src/cdk-experimental/virtual-table/virtual-table.ts:197-199 | the corrected `top` is minus the shift, and has no length only when the shift is NaN |
| `VirtualTable.WrittenTopIsShiftedTopIffShiftNonNegative` | src/cdk-experimental/virtual-table/virtual-table.ts:199 | the `top` as written matches the intended one if and only if the shift is not negative |
| `VirtualTable.TopFor` | src/cdk-experimental/virtual-table/virtual-table.ts:178 | a template's `top`: minus the shift when the shift is known and, as written, not negative; no length otherwise |
| `VirtualTable.ShiftedTopKeepsHeaderAtNaturalOffset` | src/cdk-experimental/virtual-table/virtual-table.ts:196-200 | the corrected `top` reads back as the natural offset minus the scroll offset |
| `VirtualTable.OffsetCacheFor` | src/cdk-experimental/virtual-table/virtual-table.ts:191-194 | the offset cache is kept when the header count is unchanged, and otherwise re-read from each header's current `top` |
| `VirtualTable.RowWrites` | src/cdk-experimental/virtual-table/virtual-table.ts:175-179 | every cell of a row is assigned the same `top` |
| `VirtualTable.Writes` | src/cdk-experimental/virtual-table/virtual-table.ts:174-180 | the assignments of a render: row `k`'s cells, in order, get the template's `top` for cached offset `k` (stated for flex headers by `FlexWritesAt`) |
| `VirtualTable.ApplyWrites` | src/cdk-experimental/virtual-table/virtual-table.ts:178 | the assignments applied in order; an assigned value that is not a length is rejected and changes nothing (stated by `ApplyWritesResult`) |
| `VirtualTable.ApplyWritesResult` | src/cdk-experimental/virtual-table/virtual-table.ts:174-180 | after the assignments, each element assigned a length has the last length assigned to it, and every other element, including one whose every assignment was rejected, keeps its own `top` |
| `VirtualTable.RejectedWriteKeepsTop` | src/cdk-experimental/virtual-table/virtual-table.ts:178 | assigning a value that is not a length leaves every `top` as it was |
| `VirtualTable.WrittenTopMalformedWhileContentAboveHeader` | src/cdk-experimental/virtual-table/virtual-table.ts:197-199 | at scroll offset 0 with a header at 40px, the written `top` is `--40px`, which is rejected, so the header keeps the `top` it had |
| `VirtualTable.ApplyWritesAppend` | src/cdk-experimental/virtual-table/virtual-table.ts:174-180 | two batches of assignments in turn are their concatenation, and mark the union of their cells |
| `VirtualTable.ApplyWritesIsIdempotent` | src/cdk-experimental/virtual-table/virtual-table.ts:196-200 | making the same assignments twice is the same as making them once |
| `VirtualTable.LastTopOfDistinct` | src/cdk-experimental/virtual-table/virtual-table.ts:196-200 | among assignments to distinct elements, an element assigned a length ends with its own |
| `VirtualTable.DistinctWritesAt` | src/cdk-experimental/virtual-table/virtual-table.ts:196-200 | among assignments to distinct elements, each element ends with its own `top` when that is a length, and keeps the one it had otherwise |
| `VirtualTable.Singletons` | src/cdk-experimental/virtual-table/virtual-table.ts:196-200 | each flex header row is shifted as one element |
| `VirtualTable.FlexWritesAt` | src/cdk-experimental/virtual-table/virtual-table.ts:196-200 | a flex render assigns header `k` the template's `top` for cached offset `k`, one header after the other in order |
| `VirtualTable.FlexWritesDistinct` | src/cdk-experimental/virtual-table/virtual-table.ts:196-200 | distinct header rows are assigned to distinct elements |
| `VirtualTable.FlexWriteAt` | src/cdk-experimental/virtual-table/virtual-table.ts:196-200 | assignment `k` of a flex render goes to header `k` |
| `VirtualTable.FlexTopAt` | src/cdk-experimental/virtual-table/virtual-table.ts:196-200 | after a flex render, header `k` has the `top` written for it when that is a length, and its old `top` otherwise |
| `VirtualTable.RenderFlex` | src/cdk-experimental/virtual-table/virtual-table.ts:188-201 | `renderFlexHeaderRows` over the sticky state, for either template (stated by `FlexRenderPlacesHeaders` and `RenderFlexIsIdempotent`) |
| `VirtualTable.RenderNative` | src/cdk-experimental/virtual-table/virtual-table.ts:164-181 | `renderNativeHeaderRows` over the sticky state, for either template, with the throw on a row without sticky cells (stated by `RenderNativeIsIdempotent`) |
| `VirtualTable.FlexRenderPlacesHeaders` | src/cdk-experimental/virtual-table/virtual-table.ts:188-201 | with a cached offset, the intended render puts each header at its cached offset minus the scroll offset; the render as written does so only when the shift is not negative and otherwise leaves the header where it was; a NaN cached offset leaves it where it was |
| `VirtualTable.StaleHeaderAfterScrollingBack` | src/cdk-experimental/virtual-table/virtual-table.ts:188-201 | a header at 40px rendered at offset 100 and then at 0 stays at -60px as written, and returns to 40px as intended |
| `VirtualTable.RenderFlexIsIdempotent` | src/cdk-experimental/virtual-table/virtual-table.ts:188-201 | for either template, rendering the flex header rows twice at the same offset is the same as once |
| `VirtualTable.RenderNativeIsIdempotent` | src/cdk-experimental/virtual-table/virtual-table.ts:164-181 | for either template, rendering native header rows twice at the same offset is the same as once, when it does not throw |
| `VirtualTable.RebuiltCacheReadsShiftedTop` | src/cdk-experimental/virtual-table/virtual-table.ts:191-194 | a re-read offset cache takes the `top` the last render left: the shifted one as intended, and as written the shifted one only when the shift was not negative, the natural one otherwise |
| `VirtualTable.CdkVirtualTable.constructor` | src/cdk-experimental/virtual-table/virtual-table.ts:108-143 | a new table has no range, an undefined data source and no sticky state |
| `Collections.StrictEquals` | src/cdk-experimental/virtual-table/virtual-table.ts:99 | `===` on inputs: every input equals itself; an array equals another exactly when they are the same array, whatever their items; null and undefined each equal only themselves |
| `Collections.StrictEqualsIsEquivalence` | src/cdk-experimental/virtual-table/virtual-table.ts:99 | `===` on inputs is symmetric and transitive |
| `VirtualTable.CdkVirtualTable.SetDataSource` | src/cdk-experimental/virtual-table/virtual-table.ts:98-107 | an input `===` the current one changes nothing; any other, null and undefined included, is stored and emitted once |
| `VirtualTable.CdkVirtualTable.OnRenderedRange` | src/cdk-experimental/virtual-table/virtual-table.ts:130-134 | each rendered range is stored and forwarded on `viewChange` |
| `VirtualTable.CdkVirtualTable.OnScrolledIndexChange` | src/cdk-experimental/virtual-table/virtual-table.ts:139-141 | sticky rows are rendered as written at the content offset, or at 0 when it is null |
| `VirtualTable.CdkVirtualTable.RenderStickyRows` | src/cdk-experimental/virtual-table/virtual-table.ts:150-156 | native tables render native header rows, other tables flex header rows, both as written |
| `VirtualTable.CdkVirtualTable.RenderNativeHeaderRows` | src/cdk-experimental/virtual-table/virtual-table.ts:164-181 | the cells and offsets are cached when the header count changed, then every cached cell is assigned `-${offset}px`; a row without sticky cells throws |
| `VirtualTable.CdkVirtualTable.RenderFlexHeaderRows` | src/cdk-experimental/virtual-table/virtual-table.ts:188-201 | the offsets are cached when the header count changed, then every header row is assigned `-${offset}px` |
| `VirtualTable.CdkVirtualTable.ShiftRows` | src/cdk-experimental/virtual-table/virtual-table.ts:174-180 | the nested loops make exactly the render's `-${offset}px` assignments, a rejected one leaving the cell's `top` as it was, and mark every cell `will-change: top` |
| `VirtualTable.CdkVirtualTable.ShiftRow` | src/cdk-experimental/virtual-table/virtual-table.ts:175-179 | the inner loop assigns the `top` to each cell of one row, kept only when it is a length, and marks each cell `will-change: top` |
| `VirtualTable.CdkVirtualTable.MeasureRangeSize` | src/cdk-experimental/virtual-table/virtual-table.ts:205-218 | agrees with the measuring function over the table's rendered range and row outlet |
| `MatTable.ClampIndex` | src/material/table/table.ts:158 | a slice index counts from the end when negative and is clamped to `[0, length]` |
| `MatTable.JsSlice` | src/material/table/table.ts:158 | `slice` returns the items between the clamped indices, or nothing when they cross |
| `MatTable.JsSliceOfRangeInside` | src/material/table/table.ts:158 | for a range inside the data, the slice is exactly the range's items |
| `MatTable.RenderedData` | src/material/table/table.ts:153-161 | nothing is rendered before a range arrives, and never more than the data |
| `MatTable.RenderedPositionIsItemMinusRangeStart` | src/material/table/table.ts:184 | outlet position `i - range.start` renders item `i`, which is the position `measureRangeSize` looks up |
| `MatTable.NextDataSource` | src/material/table/table.ts:123-133 | a data source is used as given (and only then); an observable is wrapped; an array is copied; null and undefined become an empty array |
| `MatTable.ConnectionLog` | src/material/table/table.ts:107-116 | the `connect`/`disconnect` calls for the sources emitted so far (stated by `ConnectionLogAlternates`) |
| `MatTable.ConnectionLogAlternates` | src/material/table/table.ts:107-116 | sources are connected in turn, each disconnected just before the next connects, and only the last stays connected |
| `MatTable.MatVirtualTable.constructor` | src/material/table/table.ts:135-166 | a new table has no range, no views and no data sources |
| `MatTable.MatVirtualTable.SetDataSource` | src/material/table/table.ts:123-133 | the wrapped source is emitted; the previous one is disconnected, then the new one connected |
| `MatTable.MatVirtualTable.OnDataAndRange` | src/material/table/table.ts:153-161 | emits the rendered slice, and stores the range only when there is one |
| `MatTable.MatVirtualTable.MeasureRangeSize` | src/material/table/table.ts:174-192 | agrees with the measuring function over the table's rendered range |
| `ScrollService.RangesEqual` | src/cdk/scrolling/virtual-scroll-service.ts:31-33 | two ranges are equal if and only if both starts and both ends agree |
| `ScrollService.Initial` | src/cdk/scrolling/virtual-scroll-service.ts:88-150 | a new service is vertical, has an empty range and nothing queued or scheduled |
| `ScrollService.SpacerSize` | src/cdk/scrolling/virtual-scroll-service.ts:416-421 | the spacer spans the content along the scrolling axis and is unset across it |
| `ScrollService.Marked` | src/cdk/scrolling/virtual-scroll-service.ts:378-391 | the callback is queued; a flush is scheduled only if none is pending, so calls are batched |
| `ScrollService.WithOrientation` | src/cdk/scrolling/virtual-scroll-service.ts:82-87 | the same orientation changes nothing; a new one is stored and resizes the spacer |
| `ScrollService.WithTotalContentSize` | src/cdk/scrolling/virtual-scroll-service.ts:248-254 | the same size changes nothing; a new one is stored, resizes the spacer and requests a flush |
| `ScrollService.WithRenderedRange` | src/cdk/scrolling/virtual-scroll-service.ts:257-262 | an equal range changes nothing; a new one is stored, emitted while streams are open, and queues the content-rendered callback |
| `ScrollService.WithContentOffset` | src/cdk/scrolling/virtual-scroll-service.ts:275-305 | the offset is stored and a transform built; an offset to the end marks it for rewriting and queues the offset callback |
| `ScrollService.TransformFor` | src/cdk/scrolling/virtual-scroll-service.ts:276-282 | the transform runs along X exactly for a horizontal viewport, keeps the requested end, and negates the offset only in a horizontal right-to-left viewport |
| `ScrollService.OffsetToContentStart` | src/cdk/scrolling/virtual-scroll-service.ts:267-269 | the offset reads null if and only if it awaits rewriting |
| `ScrollService.Attached` | src/cdk/scrolling/virtual-scroll-service.ts:173-201 | attaching fails if and only if a viewport is already attached |
| `ScrollService.Detached` | src/cdk/scrolling/virtual-scroll-service.ts:203-213 | `detach` drops the repeater, closes the streams, detaches the strategy and keeps the viewport |
| `ScrollService.RangeSizeMeasured` | src/cdk/scrolling/virtual-scroll-service.ts:356-361 | with no repeater attached the size is 0, otherwise the repeater's answer |
| `ScrollService.InitialIsValid` | src/cdk/scrolling/virtual-scroll-service.ts:88-150 | the batching invariant holds from the start |
| `ScrollService.SettersKeepValid` | src/cdk/scrolling/virtual-scroll-service.ts:248-305 | every setter keeps the batching invariant: one flush at most is scheduled, and a queued callback always has one |
| `ScrollService.RenderedRangeKeepsValid` | src/cdk/scrolling/virtual-scroll-service.ts:257-262 | a new range queues its callback after the ones already queued, so the batching invariant holds afterwards |
| `ScrollService.ContentOffsetKeepsValid` | src/cdk/scrolling/virtual-scroll-service.ts:275-305 | afterwards an offset awaiting rewriting still has an offset callback queued, either the one a new transform queues or the one queued with an unchanged transform to the end, so the batching invariant holds |
| `ScrollService.AttachDetachKeepValid` | src/cdk/scrolling/virtual-scroll-service.ts:173-213 | `attach` and `detach` keep the batching invariant |
| `ScrollService.AfterCallbackKeepsBatched` | src/cdk/scrolling/virtual-scroll-service.ts:295-303 | running one callback of a flush keeps the invariant for the callbacks still to run |
| `ScrollService.AfterCallback` | src/cdk/scrolling/virtual-scroll-service.ts:295-303 | one queued callback: an offset awaiting rewriting is rewritten as an offset to the start, otherwise the strategy is called (stated by `RewriteHappensOnce` and `NoRewriteKeepsOffset`) |
| `ScrollService.AfterCallbacksKeepsBatched` | src/cdk/scrolling/virtual-scroll-service.ts:408-411 | running all the callbacks of a flush restores the invariant |
| `ScrollService.FlushKeepsValid` | src/cdk/scrolling/virtual-scroll-service.ts:394-413 | a pending flush is always scheduled, and running it keeps the invariant |
| `ScrollService.Flushed` | src/cdk/scrolling/virtual-scroll-service.ts:394-413 | a flush: the pending flag cleared, the transform applied, the queue taken and run in order (stated by `FlushRunsQueueInOrder` and `FlushKeepsValid`) |
| `ScrollService.NoRewriteKeepsOffset` | src/cdk/scrolling/virtual-scroll-service.ts:295-303 | without a pending rewrite, callbacks leave the offset and transform alone |
| `ScrollService.RewriteHappensOnce` | src/cdk/scrolling/virtual-scroll-service.ts:295-303 | with a pending rewrite, the first offset callback subtracts the content size once and clears the mark |
| `ScrollService.ToEndOffsetIsRewrittenByFlush` | src/cdk/scrolling/virtual-scroll-service.ts:284-303 | an offset to the end reads null with a flush scheduled, and after the flush reads as the offset minus the rendered size |
| `ScrollService.RewriteSurvivesSetters` | src/cdk/scrolling/virtual-scroll-service.ts:267-269 | no setter makes an offset that awaits rewriting readable before the flush |
| `ScrollService.CallsOf` | src/cdk/scrolling/virtual-scroll-service.ts:260 | each queued callback makes exactly one strategy call |
| `ScrollService.FlushRunsQueueInOrder` | src/cdk/scrolling/virtual-scroll-service.ts:394-413 | a flush clears the pending flag, empties the queue and makes the queued strategy calls in order |
| `ScrollService.CallbacksInOrder` | src/cdk/scrolling/virtual-scroll-service.ts:408-411 | without a rewrite, callbacks only append their strategy calls, in queue order |
| `ScrollService.SettersAreIdempotent` | src/cdk/scrolling/virtual-scroll-service.ts:248-262 | setting the same size or range twice is the same as setting it once |
| `ScrollService.DetachIsFinal` | src/cdk/scrolling/virtual-scroll-service.ts:203-213 | after `detach` the service cannot be attached again, measures 0 and emits no more ranges |
| `ScrollService.VirtualScrollService.constructor` | src/cdk/scrolling/virtual-scroll-service.ts:152-171 | a new service is in the initial state for its text direction |
| `ScrollService.VirtualScrollService.SetOrientation` | src/cdk/scrolling/virtual-scroll-service.ts:82-87 | the fields end as the orientation transition says |
| `ScrollService.VirtualScrollService.Attach` | src/cdk/scrolling/virtual-scroll-service.ts:173-201 | fails, changing nothing, if and only if a viewport is already attached; otherwise stores the viewport |
| `ScrollService.VirtualScrollService.Detach` | src/cdk/scrolling/virtual-scroll-service.ts:203-213 | the fields end as the detach transition says |
| `ScrollService.VirtualScrollService.SetTotalContentSize` | src/cdk/scrolling/virtual-scroll-service.ts:248-254 | the fields end as the size transition says |
| `ScrollService.VirtualScrollService.SetRenderedRange` | src/cdk/scrolling/virtual-scroll-service.ts:257-262 | the fields end as the range transition says |
| `ScrollService.VirtualScrollService.GetOffsetToRenderedContentStart` | src/cdk/scrolling/virtual-scroll-service.ts:267-269 | returns null while the offset awaits rewriting, otherwise the offset |
| `ScrollService.VirtualScrollService.SetRenderedContentOffset` | src/cdk/scrolling/virtual-scroll-service.ts:275-305 | the fields end as the offset transition says |
| `ScrollService.VirtualScrollService.MeasureRangeSize` | src/cdk/scrolling/virtual-scroll-service.ts:356-361 | 0 without a repeater, otherwise the repeater's answer |
| `ScrollService.VirtualScrollService.MarkChangeDetectionNeeded` | src/cdk/scrolling/virtual-scroll-service.ts:378-391 | queues the callback and schedules at most one flush |
| `ScrollService.VirtualScrollService.RunCallback` | src/cdk/scrolling/virtual-scroll-service.ts:295-303 | one queued callback: rewrites a to-end offset, or calls the strategy |
| `ScrollService.VirtualScrollService.DoChangeDetection` | src/cdk/scrolling/virtual-scroll-service.ts:394-413 | the loop over the queued callbacks leaves the flushed state |
| `ScrollService.VirtualScrollService.CalculateSpacerSize` | src/cdk/scrolling/virtual-scroll-service.ts:416-421 | the spacer width and height become the spacer size for the orientation |
| `MenuAim.OpenMenusAfterCases` | src/cdk-experimental/menu-aim/menu-aim-provider.ts:36-41 | a menu not yet open is pushed; the innermost open menu changes nothing; any other open menu closes itself and every menu opened after it |
| `MenuAim.OpenMenusAfter` | src/cdk-experimental/menu-aim/menu-aim-provider.ts:36-41 | the `openMenus` update (stated by `OpenMenusAfterCases`, `OpenMenusStayDistinct` and `OpenMenusAfterIsPushOrPrefix`) |
| `MenuAim.FirstIndexIsFirst` | src/cdk-experimental/menu-aim/menu-aim-provider.ts:36 | a position holding the menu with no earlier copy is the one `indexOf` returns |
| `MenuAim.OpenMenusStayDistinct` | src/cdk-experimental/menu-aim/menu-aim-provider.ts:36-41 | the open-menu stack never holds a menu twice, and the menu is open afterwards if and only if it was closed or innermost |
| `MenuAim.OpenMenusAfterIsPushOrPrefix` | src/cdk-experimental/menu-aim/menu-aim-provider.ts:37-41 | the stack either grows by the menu or shrinks to a prefix of itself |
| `MenuAim.ActivatingAgain` | src/cdk-experimental/menu-aim/menu-aim-provider.ts:36-41 | re-activating a just-opened menu changes nothing; re-activating a just-closed menu reopens it on top |
| `MenuAim.MenuAimProvider.constructor` | src/cdk-experimental/menu-aim/menu-aim-provider.ts:11-14 | no menu is open and there is no candidate or timer |
| `MenuAim.MenuAimProvider.PossiblyActivateMenuItem` | src/cdk-experimental/menu-aim/menu-aim-provider.ts:16-22 | the item becomes the candidate, and a new timer replaces any pending one |
| `MenuAim.MenuAimProvider.ActivateHoveringMenuItem` | src/cdk-experimental/menu-aim/menu-aim-provider.ts:30-43 | nothing happens without a candidate; otherwise the stack is updated by the open-menus rule |

## Left out

- Angular's `ViewContainerRef` is not part of this model's source. `ViewContainers.ViewContainer` is a minimal stand-in with the operations the repeaters call. Its check that refuses to insert a destroyed view is omitted.
- DOM sizes, `getBoundingClientRect` and CSS lengths are floating point in the browser. They are modelled as integers, and `parseInt` results as `Option<int>` (NaN as `None`).
- `CdkVirtualTable`'s `dataStream` and its `VirtualDataSource` pipeline (rxjs) are not modelled. Only the setter's identity check and the emitted sources are. `virtual-data-source.ts` is not part of this model.
- The `attach(this)` calls the tables and the directive make on their viewport are not modelled: the viewport is outside the core.
- `DisposeViewRepeaterStrategy.detach` has an empty body, so there is nothing to model.
- `ListRenderer.RecycleRendererStrategy.InsertViewForNewItem`: the item factory is foreign code. It is taken to create one fresh view at the requested index.
- `OutletMeasure.GetOutletSize`: requires a non-negative length, because the source's count-down loop never ends for a negative one. `MeasureRangeSize` only passes non-negative lengths.
- `MatTable.MatVirtualTable.SetDataSource`: the connect and disconnect calls are modelled as if `dataStream` were subscribed. An `ArrayDataSource`'s identity is its content.
- `ScrollService.VirtualScrollService.DoChangeDetection`:
  - The microtask that runs a flush is an explicit step. `measureRenderedContentSize()` is a parameter, one value per flush.
  - A flush writes the transform onto the viewport's content wrapper. With no viewport attached, the source would fail there. The model does not model that failure: it records the applied transform either way.
  - The deferred part of `attach` is left out: measuring the viewport, attaching the strategy, subscribing to scrolling and requesting a flush.
- Scrolling and viewport measurement are DOM work and are left out: `scrolledIndexChange`, `scrollToOffset`, `scrollToIndex`, `measureScrollOffset`, `checkViewportSize` and `_measureViewportSize`.
- `getDataLength` and `getViewportSize` only read fields the model never updates, so they are left out.
- The service constructor's error for a missing scroll strategy is not modelled: the strategy is always given.
- The detached subject and `viewportChanges` streams are not modelled.
- Transform strings are a datatype rather than text.
- `MenuAim.MenuAimProvider.PossiblyActivateMenuItem`: timers, `setTimeout`/`clearTimeout` and observables are not modelled. The timer is a counter, and the menu emitted by `activate()` is a parameter of `ActivateHoveringMenuItem`. The returned observable is not modelled: `activeMenuItem$` is never assigned in the source, so its `pipe` call would fail after the timer is set.
- `VariableSizeScroll.VariableSizeVirtualScrollStrategy.UpdateRenderedRange`: requires at least one item. With no data the source reads the position of item `-1`, which is undefined.
- `VariableSizeScroll.VariableSizeVirtualScrollStrategy.OnContentScrolled`: like `UpdateRenderedRange`, requires the data length not to exceed the number of stored positions. Past the stored positions the source reads `offsetFromTop` of `undefined` (variable-size-virtual-scroll.ts:180), a TypeError the model does not reproduce. Every refresh rebuilds the positions up to the data length first, so this only matters when the data length changes without `onDataLengthChanged`.
- `ScrollService.VirtualScrollService.SetRenderedContentOffset`: the text direction is fixed when the service is built. The source reads `dir.value` on every call (virtual-scroll-service.ts:278), so a direction that changes while attached is not modelled.
- Table layout strategies, `table-virtual-scroll.ts`, the performance utility, CSS text, examples and demos, and the iterable differ that produces the change records are outside the core.

## Findings

| source | as written | input that shows it | evidently intended | confidence | as-written member | corrected member |
|---|---|---|---|---|---|---|
| src/cdk-experimental/virtual-table/virtual-table.ts:199 | the sticky header `top` is built as `-${offset}px` (here and at line 178), so a negative shift yields `--Npx` and a NaN one `-NaNpx`; neither is a CSS length, the assignment is rejected, and the header keeps the `top` of an earlier render; the table's renders use this template (`WrittenTop`, `AsWritten`) | a flex header row at 40px rendered with the content translated by 100px (`top` becomes -60px) and then at offset 0: the shift is -40, `--40px` is rejected, and the header stays at -60px | `top` is minus the shift (`ShiftedTop`, `Intended`), so a header always sits at its cached offset minus the scroll offset | not executed | `VirtualTable.StaleHeaderAfterScrollingBack` | `VirtualTable.FlexRenderPlacesHeaders` |
