/** `VariableSizeVirtualScrollStrategy` and the `CdkVariableSizeVirtualScroll` directive that
    owns one, over the viewport state they read and write. */
module VariableSizeScroll {
  import opened Wrappers
  import opened Collections
  import opened ItemPositions

  /** The part of `CdkVirtualScrollViewport` the strategy talks to. The viewport's own code
      is not part of this model: its getters read these fields and the setters the strategy
      calls (`setTotalContentSize`, `setRenderedRange`, `setRenderedContentOffset`,
      `scrollToOffset`) store into them. */
  class ViewportHost {
    var dataLength: nat
    var viewportSize: int
    var scrollOffset: int
    var renderedRange: ListRange
    var totalContentSize: int
    var renderedContentOffset: int
    /** The offset of the last `scrollToOffset` request, if any. */
    var lastScrollTarget: Option<int>

    constructor (dataLength: nat, viewportSize: int, scrollOffset: int)
      ensures this.dataLength == dataLength && this.viewportSize == viewportSize && this.scrollOffset == scrollOffset
      ensures renderedRange == ListRange(0, 0) && totalContentSize == 0 && renderedContentOffset == 0
      ensures lastScrollTarget == None
    {
      this.dataLength := dataLength;
      this.viewportSize := viewportSize;
      this.scrollOffset := scrollOffset;
      renderedRange := ListRange(0, 0);
      totalContentSize := 0;
      renderedContentOffset := 0;
      lastScrollTarget := None;
    }
  }

  /** `next(v)` on the scrolled-index Subject piped through `distinctUntilChanged`, as a
      subscriber sees it: nothing once the Subject is completed, and nothing when `v`
      repeats the previous emission. */
  function Emit(emitted: seq<int>, completed: bool, v: int): (r: seq<int>)
    ensures |emitted| <= |r| <= |emitted| + 1 && r[..|emitted|] == emitted
    ensures |r| > 0 ==> r[|r| - 1] == if |r| > |emitted| then v else emitted[|emitted| - 1]
  {
    if completed || (|emitted| > 0 && emitted[|emitted| - 1] == v) then emitted else emitted + [v]
  }

  ghost predicate NoRepeats(s: seq<int>)
  {
    forall i :: 0 < i < |s| ==> s[i] != s[i - 1]
  }

  /** The emitted scrolled indices never repeat back to back, an open stream ends with the
      latest index, and emitting the same index twice is the same as once. */
  lemma EmitIsDistinct(emitted: seq<int>, completed: bool, v: int)
    requires NoRepeats(emitted)
    ensures NoRepeats(Emit(emitted, completed, v))
    ensures Emit(emitted, completed, v) == emitted || Emit(emitted, completed, v) == emitted + [v]
    ensures !completed ==> |Emit(emitted, completed, v)| > 0 && Emit(emitted, completed, v)[|Emit(emitted, completed, v)| - 1] == v
    ensures Emit(Emit(emitted, completed, v), completed, v) == Emit(emitted, completed, v)
  {
  }

  class VariableSizeVirtualScrollStrategy {
    var itemPositions: seq<ItemPosition>
    /** What a subscriber of `scrolledIndexChange` has received so far. */
    var scrolledIndexChanges: seq<int>
    var scrolledIndexCompleted: bool
    var viewport: ViewportHost?
    var minBufferPx: int
    var maxBufferPx: int
    var itemSizeFactory: nat -> int

    constructor (minBufferPx: int, maxBufferPx: int, itemSizeFactory: nat -> int)
      ensures this.minBufferPx == minBufferPx && this.maxBufferPx == maxBufferPx
      ensures this.itemSizeFactory == itemSizeFactory
      ensures itemPositions == [] && viewport == null
      ensures scrolledIndexChanges == [] && !scrolledIndexCompleted
    {
      this.minBufferPx := minBufferPx;
      this.maxBufferPx := maxBufferPx;
      this.itemSizeFactory := itemSizeFactory;
      itemPositions := [];
      viewport := null;
      scrolledIndexChanges := [];
      scrolledIndexCompleted := false;
    }

    /** The entries a rendered-range recompute reads exist: without them the source reads a
        property of `undefined`. */
    ghost predicate CanRecompute()
      reads this, viewport
    {
      viewport != null ==> 1 <= viewport.dataLength <= |itemPositions|
    }

    /** The state after a rebuild, a total-size update and a range recompute on an attached
        viewport, given the positions, range and emissions before them. */
    ghost predicate Refreshed(positionsBefore: seq<ItemPosition>, rangeBefore: ListRange, emittedBefore: seq<int>)
      reads this, viewport
    {
      viewport != null && 1 <= viewport.dataLength &&
      itemPositions == Rebuilt(positionsBefore, viewport.dataLength, itemSizeFactory) &&
      viewport.totalContentSize == EndOfItemOffset(itemPositions, viewport.dataLength - 1) &&
      Recomputed(rangeBefore, emittedBefore)
    }

    /** The viewport state after `_updateRenderedRange`, given the range and emissions before. */
    ghost predicate Recomputed(rangeBefore: ListRange, emittedBefore: seq<int>)
      reads this, viewport
    {
      viewport != null && 1 <= viewport.dataLength <= |itemPositions| &&
      viewport.renderedRange == RecomputedRange(itemPositions, viewport.dataLength, viewport.viewportSize,
                                                viewport.scrollOffset, rangeBefore, minBufferPx, maxBufferPx) &&
      viewport.renderedContentOffset == itemPositions[viewport.renderedRange.start].offsetFromTop &&
      scrolledIndexChanges == Emit(emittedBefore, scrolledIndexCompleted,
                                   IndexAtIntersection(itemPositions, viewport.dataLength, viewport.scrollOffset, 0))
    }

    /** `updateItemSizeFactoryAndBuffers`: store the new factory and buffers, then rebuild and
        recompute as `onDataLengthChanged` does. */
    method UpdateItemSizeFactoryAndBuffers(factory: nat -> int, minBuffer: int, maxBuffer: int)
      requires viewport != null ==> 1 <= viewport.dataLength
      modifies this`itemSizeFactory, this`minBufferPx, this`maxBufferPx, this`itemPositions, this`scrolledIndexChanges
      modifies viewport
      ensures old(viewport) != null ==> unchanged(viewport`dataLength, viewport`viewportSize, viewport`scrollOffset, viewport`lastScrollTarget)
      ensures itemSizeFactory == factory && minBufferPx == minBuffer && maxBufferPx == maxBuffer
      ensures old(viewport) != null ==>
                Refreshed(old(itemPositions), old(viewport.renderedRange), old(scrolledIndexChanges))
      ensures old(viewport) == null ==>
                itemPositions == old(itemPositions) && scrolledIndexChanges == old(scrolledIndexChanges)
    {
      itemSizeFactory := factory;
      minBufferPx := minBuffer;
      maxBufferPx := maxBuffer;
      UpdateItemSizes(0);
      UpdateTotalContentSize();
      UpdateRenderedRange();
    }

    /** `updateItemSize(index)`: the index reaches `updateItemSizes`, which ignores it, so this
        is a full rebuild followed by a recompute. */
    method UpdateItemSize(index: int)
      requires viewport != null ==> 1 <= viewport.dataLength
      modifies this`itemPositions, this`scrolledIndexChanges
      modifies viewport
      ensures old(viewport) != null ==> unchanged(viewport`dataLength, viewport`viewportSize, viewport`scrollOffset, viewport`lastScrollTarget)
      ensures old(viewport) != null ==>
                Refreshed(old(itemPositions), old(viewport.renderedRange), old(scrolledIndexChanges))
      ensures old(viewport) == null ==>
                itemPositions == old(itemPositions) && scrolledIndexChanges == old(scrolledIndexChanges)
    {
      UpdateItemSizes(index);
      UpdateTotalContentSize();
      UpdateRenderedRange();
    }

    /** `attach`: hold the viewport, rebuild every position, publish the total size and
        recompute the range. */
    method Attach(vp: ViewportHost)
      requires 1 <= vp.dataLength
      modifies this`viewport, this`itemPositions, this`scrolledIndexChanges
      modifies vp
      ensures unchanged(vp`dataLength, vp`viewportSize, vp`scrollOffset, vp`lastScrollTarget)
      ensures viewport == vp
      ensures Refreshed(old(itemPositions), old(vp.renderedRange), old(scrolledIndexChanges))
    {
      viewport := vp;
      UpdateItemSizes(0);
      UpdateTotalContentSize();
      UpdateRenderedRange();
    }

    /** `detach`: complete the scrolled-index stream and drop the viewport. The positions
        are kept. */
    method Detach()
      modifies this`viewport, this`scrolledIndexCompleted
      ensures viewport == null && scrolledIndexCompleted
    {
      scrolledIndexCompleted := true;
      viewport := null;
    }

    /** `onContentScrolled`: recompute the range from the current positions. */
    method OnContentScrolled()
      requires CanRecompute()
      modifies this`scrolledIndexChanges, viewport
      ensures old(viewport) != null ==> unchanged(viewport`dataLength, viewport`viewportSize, viewport`scrollOffset, viewport`lastScrollTarget, viewport`totalContentSize)
      ensures old(viewport) != null ==> Recomputed(old(viewport.renderedRange), old(scrolledIndexChanges))
      ensures old(viewport) == null ==> scrolledIndexChanges == old(scrolledIndexChanges)
    {
      UpdateRenderedRange();
    }

    /** `onDataLengthChanged`: rebuild every position, publish the total size, recompute. */
    method OnDataLengthChanged()
      requires viewport != null ==> 1 <= viewport.dataLength
      modifies this`itemPositions, this`scrolledIndexChanges
      modifies viewport
      ensures old(viewport) != null ==> unchanged(viewport`dataLength, viewport`viewportSize, viewport`scrollOffset, viewport`lastScrollTarget)
      ensures old(viewport) != null ==>
                Refreshed(old(itemPositions), old(viewport.renderedRange), old(scrolledIndexChanges))
      ensures old(viewport) == null ==>
                itemPositions == old(itemPositions) && scrolledIndexChanges == old(scrolledIndexChanges)
    {
      UpdateItemSizes(0);
      UpdateTotalContentSize();
      UpdateRenderedRange();
    }

    /** `scrollToIndex`: ask an attached viewport to scroll to the item's offset, if the item
        has an entry. */
    method ScrollToIndex(index: int)
      modifies viewport
      ensures old(viewport) != null ==> unchanged(viewport`dataLength, viewport`viewportSize, viewport`scrollOffset, viewport`renderedRange, viewport`totalContentSize, viewport`renderedContentOffset)
      ensures viewport != null && 0 <= index < |itemPositions| ==>
                viewport.lastScrollTarget == Some(itemPositions[index].offsetFromTop)
      ensures viewport != null && !(0 <= index < |itemPositions|) ==>
                viewport.lastScrollTarget == old(viewport.lastScrollTarget)
    {
      if viewport != null && PositionAt(itemPositions, index).Some? {
        viewport.lastScrollTarget := Some(itemPositions[index].offsetFromTop);
      }
    }

    /** `updateItemSizes(startIndex)`: on an attached viewport, rewrite entries `0 .. n-1` from
        the factory, each starting where the previous one ends. `startIndex` is ignored. */
    method UpdateItemSizes(startIndex: int)
      modifies this`itemPositions
      ensures viewport == null ==> itemPositions == old(itemPositions)
      ensures viewport != null ==> itemPositions == Rebuilt(old(itemPositions), viewport.dataLength, itemSizeFactory)
    {
      if viewport == null {
        return;
      }
      var i := 0;
      while i < viewport.dataLength
        invariant 0 <= i <= viewport.dataLength
        invariant itemPositions == Rebuilt(old(itemPositions), i, itemSizeFactory)
      {
        var p := ItemPosition(EndOfItemOffset(itemPositions, i - 1), itemSizeFactory(i));
        if i < |itemPositions| {
          itemPositions := itemPositions[i := p];
        } else {
          itemPositions := itemPositions + [p];
        }
        i := i + 1;
      }
    }

    /** `_updateTotalContentSize`: publish where item `n - 1` ends (0 when `n = 0`). */
    method UpdateTotalContentSize()
      modifies viewport
      ensures old(viewport) != null ==> unchanged(viewport`dataLength, viewport`viewportSize, viewport`scrollOffset, viewport`renderedRange, viewport`renderedContentOffset, viewport`lastScrollTarget)
      ensures viewport != null ==> viewport.totalContentSize == EndOfItemOffset(itemPositions, viewport.dataLength - 1)
    {
      if viewport == null {
        return;
      }
      viewport.totalContentSize := EndOfItemOffset(itemPositions, viewport.dataLength - 1);
    }

    /** `_updateRenderedRange`: recompute both bounds with the hysteresis rule, move the
        rendered content to the new start item, and emit the item at the scroll offset. */
    method UpdateRenderedRange()
      requires CanRecompute()
      modifies this`scrolledIndexChanges, viewport
      ensures old(viewport) != null ==> unchanged(viewport`dataLength, viewport`viewportSize, viewport`scrollOffset, viewport`lastScrollTarget, viewport`totalContentSize)
      ensures old(viewport) != null ==> Recomputed(old(viewport.renderedRange), old(scrolledIndexChanges))
      ensures old(viewport) == null ==> scrolledIndexChanges == old(scrolledIndexChanges)
    {
      if viewport == null {
        return;
      }
      var viewportSize := viewport.viewportSize;
      var scrollOffset := viewport.scrollOffset;
      var newRange := viewport.renderedRange;
      var visibleStartIndex := GetItemIndexAtIntersection(scrollOffset, 0);
      var n := viewport.dataLength;
      newRange := RecomputedRange(itemPositions, n, viewportSize, scrollOffset, newRange, minBufferPx, maxBufferPx);
      var contentOffset := itemPositions[newRange.start].offsetFromTop;
      var emitted := Emit(scrolledIndexChanges, scrolledIndexCompleted, visibleStartIndex);
      viewport.renderedRange := newRange;
      viewport.renderedContentOffset := contentOffset;
      scrolledIndexChanges := emitted;
    }

    /** `_getItemIndexAtIntersection`: scan the items in order and return the first that
        covers `p`, else `d`. */
    method GetItemIndexAtIntersection(p: int, d: int) returns (r: int)
      requires viewport != null && viewport.dataLength <= |itemPositions|
      ensures r == IndexAtIntersection(itemPositions, viewport.dataLength, p, d)
    {
      var n := viewport.dataLength;
      var i := 0;
      while i < n
        invariant 0 <= i <= n
        invariant ScanFrom(itemPositions, n, p, d, i) == ScanFrom(itemPositions, n, p, d, 0)
      {
        if itemPositions[i].offsetFromTop <= p && EndOfItemOffset(itemPositions, i) > p {
          return i;
        }
        i := i + 1;
      }
      return d;
    }
  }

  /** The `variableSize` directive: holds the inputs and one strategy built from their
      defaults (every item 10px, buffers of 100px and 200px). */
  class CdkVariableSizeVirtualScroll {
    var itemSizeFactory: nat -> int
    var minBufferPx: int
    var maxBufferPx: int
    const scrollStrategy: VariableSizeVirtualScrollStrategy

    constructor ()
      ensures forall i: nat :: itemSizeFactory(i) == 10
      ensures minBufferPx == 100 && maxBufferPx == 200
      ensures fresh(scrollStrategy) && scrollStrategy.viewport == null && scrollStrategy.itemPositions == []
      ensures scrollStrategy.minBufferPx == 100 && scrollStrategy.maxBufferPx == 200
      ensures scrollStrategy.itemSizeFactory == itemSizeFactory
    {
      var factory: nat -> int := _ => 10;
      itemSizeFactory := factory;
      minBufferPx := 100;
      maxBufferPx := 200;
      scrollStrategy := new VariableSizeVirtualScrollStrategy(100, 200, factory);
    }

    /** `ngOnChanges`: hand the current inputs to the strategy. */
    method NgOnChanges()
      requires scrollStrategy.viewport != null ==> 1 <= scrollStrategy.viewport.dataLength
      modifies scrollStrategy`itemSizeFactory, scrollStrategy`minBufferPx, scrollStrategy`maxBufferPx
      modifies scrollStrategy`itemPositions, scrollStrategy`scrolledIndexChanges, scrollStrategy.viewport
      ensures scrollStrategy.itemSizeFactory == itemSizeFactory
      ensures scrollStrategy.minBufferPx == minBufferPx && scrollStrategy.maxBufferPx == maxBufferPx
      ensures scrollStrategy.viewport == old(scrollStrategy.viewport)
      ensures old(scrollStrategy.viewport) != null ==>
                unchanged(scrollStrategy.viewport`dataLength, scrollStrategy.viewport`viewportSize,
                          scrollStrategy.viewport`scrollOffset, scrollStrategy.viewport`lastScrollTarget)
      ensures old(scrollStrategy.viewport) != null ==>
                scrollStrategy.Refreshed(old(scrollStrategy.itemPositions), old(scrollStrategy.viewport.renderedRange),
                                         old(scrollStrategy.scrolledIndexChanges))
      ensures old(scrollStrategy.viewport) == null ==>
                scrollStrategy.itemPositions == old(scrollStrategy.itemPositions) &&
                scrollStrategy.scrolledIndexChanges == old(scrollStrategy.scrolledIndexChanges)
    {
      scrollStrategy.UpdateItemSizeFactoryAndBuffers(itemSizeFactory, minBufferPx, maxBufferPx);
    }

    /** `markItemSizeDirty(index)`: a full rebuild and recompute, whatever the index; the
        inputs the strategy holds stay as they are. */
    method MarkItemSizeDirty(index: int)
      requires scrollStrategy.viewport != null ==> 1 <= scrollStrategy.viewport.dataLength
      modifies scrollStrategy`itemPositions, scrollStrategy`scrolledIndexChanges, scrollStrategy.viewport
      ensures scrollStrategy.viewport == old(scrollStrategy.viewport)
      ensures scrollStrategy.itemSizeFactory == old(scrollStrategy.itemSizeFactory)
      ensures scrollStrategy.minBufferPx == old(scrollStrategy.minBufferPx)
      ensures scrollStrategy.maxBufferPx == old(scrollStrategy.maxBufferPx)
      ensures old(scrollStrategy.viewport) != null ==>
                unchanged(scrollStrategy.viewport`dataLength, scrollStrategy.viewport`viewportSize,
                          scrollStrategy.viewport`scrollOffset, scrollStrategy.viewport`lastScrollTarget)
      ensures old(scrollStrategy.viewport) != null ==>
                scrollStrategy.Refreshed(old(scrollStrategy.itemPositions), old(scrollStrategy.viewport.renderedRange),
                                         old(scrollStrategy.scrolledIndexChanges))
      ensures old(scrollStrategy.viewport) == null ==>
                scrollStrategy.itemPositions == old(scrollStrategy.itemPositions) &&
                scrollStrategy.scrolledIndexChanges == old(scrollStrategy.scrolledIndexChanges)
    {
      scrollStrategy.UpdateItemSize(index);
    }
  }
}
