/** The position index of the variable-size scroll strategy: one `{offsetFromTop, size}`
    entry per item, its rebuild from an item-size factory, the first-hit scan that finds
    the item under a pixel offset, and the start/end hysteresis rule of the rendered range.

    Everything here is a pure function of the positions array; the strategy class in
    variable_size_strategy.dfy runs the loops and keeps the state. */
module ItemPositions {
  import opened Wrappers
  import opened Collections

  /** Where an item starts along the scroll axis, and its extent. */
  datatype ItemPosition = ItemPosition(offsetFromTop: int, size: int)

  /** `_itemPositions[index]`: a JavaScript array read, undefined outside the array
      (negative indices included). */
  function PositionAt(positions: seq<ItemPosition>, index: int): Option<ItemPosition>
  {
    if 0 <= index < |positions| then Some(positions[index]) else None
  }

  /** `coerceItemPosition`: a missing entry reads as an empty item at offset 0. */
  function CoercePosition(p: Option<ItemPosition>): ItemPosition
  {
    match p
    case Some(item) => item
    case None => ItemPosition(0, 0)
  }

  /** `_getEndOfItemOffset`: the offset at which item `index` ends. */
  function EndOfItemOffset(positions: seq<ItemPosition>, index: int): (r: int)
    ensures 0 <= index < |positions| ==> r == positions[index].offsetFromTop + positions[index].size
    ensures !(0 <= index < |positions|) ==> r == 0
  {
    var item := CoercePosition(PositionAt(positions, index));
    item.size + item.offsetFromTop
  }

  /** `_itemPositions[i] = p` with `i <= length`: overwrite, or grow the array by one. */
  function Store(positions: seq<ItemPosition>, i: nat, p: ItemPosition): seq<ItemPosition>
    requires i <= |positions|
  {
    if i < |positions| then positions[i := p] else positions + [p]
  }

  /** The positions array after `updateItemSizes` has run its loop for `i = 0 .. n-1`:
      entry `i` gets the factory's size and starts where entry `i-1` (already rewritten)
      ends. Entries at `n` and beyond are left as they were; the array never shrinks. */
  function Rebuilt(positions: seq<ItemPosition>, n: nat, factory: nat -> int): (r: seq<ItemPosition>)
    ensures |r| == if n <= |positions| then |positions| else n
    decreases n
  {
    if n == 0 then positions
    else
      var prev := Rebuilt(positions, n - 1, factory);
      Store(prev, n - 1, ItemPosition(EndOfItemOffset(prev, n - 2), factory(n - 1)))
  }

  /** Sum of the factory's sizes of items `0 .. k-1`: the reference definition of offsets. */
  function SizeSum(factory: nat -> int, k: nat): int
  {
    if k == 0 then 0 else SizeSum(factory, k - 1) + factory(k - 1)
  }

  /** After a rebuild over `n` items, entry `i < n` holds the factory's size and starts at 0
      for the first item, else where the previous item ends. */
  lemma {:induction false} RebuiltEntry(positions: seq<ItemPosition>, n: nat, factory: nat -> int, i: nat)
    requires i < n
    ensures Rebuilt(positions, n, factory)[i].size == factory(i)
    ensures Rebuilt(positions, n, factory)[i].offsetFromTop ==
            if i == 0 then 0
            else Rebuilt(positions, n, factory)[i - 1].offsetFromTop + Rebuilt(positions, n, factory)[i - 1].size
  {
    var prev := Rebuilt(positions, n - 1, factory);
    if i < n - 1 {
      RebuiltEntry(positions, n - 1, factory, i);
    }
  }

  /** A rebuild over `n` items leaves every entry at index `n` or beyond untouched. */
  lemma {:induction false} RebuiltKeepsTail(positions: seq<ItemPosition>, n: nat, factory: nat -> int, i: nat)
    requires n <= i < |positions|
    ensures Rebuilt(positions, n, factory)[i] == positions[i]
  {
    if n > 0 {
      RebuiltKeepsTail(positions, n - 1, factory, i);
    }
  }

  /** Offsets of a rebuilt array are the running sums of the factory's sizes. */
  lemma {:induction false} RebuiltOffsetIsSizeSum(positions: seq<ItemPosition>, n: nat, factory: nat -> int, i: nat)
    requires i < n
    ensures Rebuilt(positions, n, factory)[i].offsetFromTop == SizeSum(factory, i)
  {
    RebuiltEntry(positions, n, factory, i);
    if i > 0 {
      RebuiltOffsetIsSizeSum(positions, n, factory, i - 1);
      RebuiltEntry(positions, n, factory, i - 1);
    }
  }

  /** The total content size the strategy publishes after a rebuild is the sum of the `n`
      sizes; for `n = 0` the missing entry `-1` reads as 0. */
  lemma RebuiltTotalIsSizeSum(positions: seq<ItemPosition>, n: nat, factory: nat -> int)
    ensures EndOfItemOffset(Rebuilt(positions, n, factory), n - 1) == SizeSum(factory, n)
  {
    if n > 0 {
      RebuiltOffsetIsSizeSum(positions, n, factory, n - 1);
      RebuiltEntry(positions, n, factory, n - 1);
    }
  }

  /** The first `n` entries tile the axis from 0: each starts where the previous ends. */
  ghost predicate Consistent(positions: seq<ItemPosition>, n: nat)
  {
    n <= |positions| &&
    (n > 0 ==> positions[0].offsetFromTop == 0) &&
    forall i :: 0 < i < n ==> Step(positions, i)
  }

  /** Item `i` starts where item `i - 1` ends. */
  predicate Step(positions: seq<ItemPosition>, i: int)
    requires 0 < i < |positions|
  {
    positions[i].offsetFromTop == positions[i - 1].offsetFromTop + positions[i - 1].size
  }

  ghost predicate NonNegativeSizes(positions: seq<ItemPosition>, n: nat)
    requires n <= |positions|
  {
    forall i :: 0 <= i < n ==> positions[i].size >= 0
  }

  /** A rebuild makes the first `n` entries consistent, and their sizes are those of the
      factory, so non-negative whenever the factory's are. */
  lemma RebuiltIsConsistent(positions: seq<ItemPosition>, n: nat, factory: nat -> int)
    ensures Consistent(Rebuilt(positions, n, factory), n)
    ensures (forall i: nat :: i < n ==> factory(i) >= 0) ==> NonNegativeSizes(Rebuilt(positions, n, factory), n)
  {
    var r := Rebuilt(positions, n, factory);
    forall i | 0 <= i < n
      ensures r[i].size == factory(i)
      ensures r[i].offsetFromTop == if i == 0 then 0 else r[i - 1].offsetFromTop + r[i - 1].size
    {
      RebuiltEntry(positions, n, factory, i);
    }
  }

  /** With non-negative sizes an item starts no earlier than every earlier item ends. */
  lemma {:induction false} OffsetsAdvance(positions: seq<ItemPosition>, n: nat, i: nat, j: nat)
    requires Consistent(positions, n) && NonNegativeSizes(positions, n)
    requires i < j < n
    ensures positions[i].offsetFromTop + positions[i].size <= positions[j].offsetFromTop
  {
    assert Step(positions, j);
    if i < j - 1 {
      OffsetsAdvance(positions, n, i, j - 1);
    }
  }

  /** Offsets of consistent entries with non-negative sizes never decrease, start at 0, and
      every item ends by the total size. */
  lemma OffsetsMonotone(positions: seq<ItemPosition>, n: nat, i: nat, j: nat)
    requires Consistent(positions, n) && NonNegativeSizes(positions, n)
    requires i <= j < n
    ensures 0 <= positions[i].offsetFromTop <= positions[j].offsetFromTop
    ensures EndOfItemOffset(positions, j) <= EndOfItemOffset(positions, n - 1)
  {
    if i < j {
      OffsetsAdvance(positions, n, i, j);
    }
    if 0 < i {
      OffsetsAdvance(positions, n, 0, i);
    }
    if j < n - 1 {
      OffsetsAdvance(positions, n, j, n - 1);
    }
  }

  /** The condition `_getItemIndexAtIntersection` tests for item `i`. */
  predicate Covers(positions: seq<ItemPosition>, i: int, p: int)
    requires 0 <= i < |positions|
  {
    positions[i].offsetFromTop <= p < positions[i].offsetFromTop + positions[i].size
  }

  /** The scan of `_getItemIndexAtIntersection` from index `i` on. */
  function ScanFrom(positions: seq<ItemPosition>, n: nat, p: int, d: int, i: nat): (r: int)
    requires n <= |positions|
    ensures (forall j :: i <= j < n ==> !Covers(positions, j, p)) ==> r == d
    ensures (exists j :: i <= j < n && Covers(positions, j, p)) ==>
              i <= r < n && Covers(positions, r, p) && forall j :: i <= j < r ==> !Covers(positions, j, p)
    decreases n - i
  {
    if i >= n then d
    else if Covers(positions, i, p) then i
    else ScanFrom(positions, n, p, d, i + 1)
  }

  /** `_getItemIndexAtIntersection(p, d)`: the first of the `n` items that covers `p`, or
      `d` when none does. A covering item has a positive size, so an item of size 0 is
      never the answer. */
  function IndexAtIntersection(positions: seq<ItemPosition>, n: nat, p: int, d: int): (r: int)
    requires n <= |positions|
    ensures r == d || 0 <= r < n
    ensures (forall j :: 0 <= j < n ==> !Covers(positions, j, p)) ==> r == d
    ensures (exists j :: 0 <= j < n && Covers(positions, j, p)) ==>
              0 <= r < n && Covers(positions, r, p) && positions[r].size > 0 &&
              forall j :: 0 <= j < r ==> !Covers(positions, j, p)
  {
    ScanFrom(positions, n, p, d, 0)
  }

  /** On consistent entries with non-negative sizes at most one item covers an offset, so a
      binary search would find the same item as the scan. */
  lemma CoverIsUnique(positions: seq<ItemPosition>, n: nat, p: int, i: nat, j: nat)
    requires Consistent(positions, n) && NonNegativeSizes(positions, n)
    requires i < n && j < n && Covers(positions, i, p) && Covers(positions, j, p)
    ensures i == j
  {
    if i < j {
      OffsetsAdvance(positions, n, i, j);
    } else if j < i {
      OffsetsAdvance(positions, n, j, i);
    }
  }

  /** Every offset in `[0, total)` is covered by one of the `n` items. */
  lemma {:induction false} CoveredBelowTotal(positions: seq<ItemPosition>, n: nat, p: int)
    requires Consistent(positions, n) && NonNegativeSizes(positions, n)
    requires 0 <= p < EndOfItemOffset(positions, n - 1)
    ensures exists j :: 0 <= j < n && Covers(positions, j, p)
  {
    if p >= positions[n - 1].offsetFromTop {
      assert Covers(positions, n - 1, p);
    } else {
      assert Step(positions, n - 1);
      assert Consistent(positions, n - 1);
      CoveredBelowTotal(positions, n - 1, p);
    }
  }

  /** The scan hits exactly on `[0, total)` and falls back to `d` elsewhere. */
  lemma HitExactlyBelowTotal(positions: seq<ItemPosition>, n: nat, p: int, d: int)
    requires Consistent(positions, n) && NonNegativeSizes(positions, n)
    ensures 0 <= p < EndOfItemOffset(positions, n - 1) ==>
              0 <= IndexAtIntersection(positions, n, p, d) < n &&
              Covers(positions, IndexAtIntersection(positions, n, p, d), p)
    ensures p < 0 || p >= EndOfItemOffset(positions, n - 1) ==> IndexAtIntersection(positions, n, p, d) == d
  {
    if 0 <= p < EndOfItemOffset(positions, n - 1) {
      CoveredBelowTotal(positions, n, p);
    } else {
      forall j | 0 <= j < n ensures !Covers(positions, j, p) {
        OffsetsMonotone(positions, n, 0, j);
      }
    }
  }

  /** Between two offsets that both hit, the scan result does not decrease. */
  lemma IndexAtMonotone(positions: seq<ItemPosition>, n: nat, p1: int, p2: int, d: int)
    requires Consistent(positions, n) && NonNegativeSizes(positions, n)
    requires 0 <= p1 <= p2 < EndOfItemOffset(positions, n - 1)
    ensures IndexAtIntersection(positions, n, p1, d) <= IndexAtIntersection(positions, n, p2, d)
  {
    HitExactlyBelowTotal(positions, n, p1, d);
    HitExactlyBelowTotal(positions, n, p2, d);
    var i1 := IndexAtIntersection(positions, n, p1, d);
    var i2 := IndexAtIntersection(positions, n, p2, d);
    if i2 < i1 {
      OffsetsAdvance(positions, n, i2, i1);
    }
  }

  /** `(minIndex, maxIndex)` of `_getStartIndex`: the items at the visible item's offset
      minus the min and the max buffer. */
  function StartProbes(positions: seq<ItemPosition>, n: nat, minBufferPx: int, maxBufferPx: int, offset: int, d: int): (int, int)
    requires n <= |positions| && 0 <= d < |positions|
  {
    var visible := IndexAtIntersection(positions, n, offset, d);
    var top := positions[visible].offsetFromTop;
    (IndexAtIntersection(positions, n, top - minBufferPx, d), IndexAtIntersection(positions, n, top - maxBufferPx, d))
  }

  /** `_getStartIndex`: keep `index` while it lies in `[maxIndex, minIndex]`, else take
      `maxIndex`. */
  function StartIndex(positions: seq<ItemPosition>, n: nat, minBufferPx: int, maxBufferPx: int, index: int, offset: int, d: int): (r: int)
    requires n <= |positions| && 0 <= d < |positions|
    ensures var (minIndex, maxIndex) := StartProbes(positions, n, minBufferPx, maxBufferPx, offset, d);
      (r == index || r == maxIndex) && (maxIndex <= index <= minIndex ==> r == index)
  {
    var (minIndex, maxIndex) := StartProbes(positions, n, minBufferPx, maxBufferPx, offset, d);
    if index > minIndex || index < maxIndex then maxIndex else index
  }

  /** `(minIndex, maxIndex)` of `_getEndIndex`: the items at the visible item's offset plus
      the min and the max buffer. */
  function EndProbes(positions: seq<ItemPosition>, n: nat, minBufferPx: int, maxBufferPx: int, offset: int, d: int): (int, int)
    requires n <= |positions| && 0 <= d < |positions|
  {
    var visible := IndexAtIntersection(positions, n, offset, d);
    var top := positions[visible].offsetFromTop;
    (IndexAtIntersection(positions, n, top + minBufferPx, d), IndexAtIntersection(positions, n, top + maxBufferPx, d))
  }

  /** `_getEndIndex`: keep `index` while it lies in `[minIndex, maxIndex]`, else take
      `maxIndex`. */
  function EndIndex(positions: seq<ItemPosition>, n: nat, minBufferPx: int, maxBufferPx: int, index: int, offset: int, d: int): (r: int)
    requires n <= |positions| && 0 <= d < |positions|
    ensures var (minIndex, maxIndex) := EndProbes(positions, n, minBufferPx, maxBufferPx, offset, d);
      (r == index || r == maxIndex) && (minIndex <= index <= maxIndex ==> r == index)
  {
    var (minIndex, maxIndex) := EndProbes(positions, n, minBufferPx, maxBufferPx, offset, d);
    if index < minIndex || index > maxIndex then maxIndex else index
  }

  /** The range `_updateRenderedRange` computes from the current one: the start is probed
      around the item at `scrollOffset` (default 0), the end around the item at
      `scrollOffset + viewportSize` (default `n - 1`). Both bounds always come out as item
      indices in `[0, n - 1]`, whatever the old range was: the end is an item index, not an
      exclusive bound, so item `n - 1` is never inside the half-open range. */
  function RecomputedRange(positions: seq<ItemPosition>, n: nat, viewportSize: int, scrollOffset: int,
                           current: ListRange, minBufferPx: int, maxBufferPx: int): (r: ListRange)
    requires 1 <= n <= |positions|
    ensures 0 <= r.start < n && 0 <= r.end < n
  {
    ListRange(StartIndex(positions, n, minBufferPx, maxBufferPx, current.start, scrollOffset, 0),
              EndIndex(positions, n, minBufferPx, maxBufferPx, current.end, scrollOffset + viewportSize, n - 1))
  }

  /** With `0 <= minBufferPx <= maxBufferPx` the start probes are ordered
      `maxIndex <= minIndex`, so the hysteresis window is never empty. */
  lemma StartProbesOrdered(positions: seq<ItemPosition>, n: nat, minBufferPx: int, maxBufferPx: int, offset: int)
    requires Consistent(positions, n) && NonNegativeSizes(positions, n) && 1 <= n
    requires 0 <= minBufferPx <= maxBufferPx
    ensures StartProbes(positions, n, minBufferPx, maxBufferPx, offset, 0).1 <=
            StartProbes(positions, n, minBufferPx, maxBufferPx, offset, 0).0
  {
    var top := positions[IndexAtIntersection(positions, n, offset, 0)].offsetFromTop;
    ProbesAt(positions, n, minBufferPx, maxBufferPx, offset);
    VisibleTopBelowTotal(positions, n, offset);
    StartProbeOrder(positions, n, top - maxBufferPx, top - minBufferPx);
  }

  /** The probes of `_getStartIndex` and `_getEndIndex`, spelled out. */
  lemma ProbesAt(positions: seq<ItemPosition>, n: nat, minBufferPx: int, maxBufferPx: int, offset: int)
    requires 1 <= n <= |positions|
    ensures var top := positions[IndexAtIntersection(positions, n, offset, 0)].offsetFromTop;
      StartProbes(positions, n, minBufferPx, maxBufferPx, offset, 0) ==
        (IndexAtIntersection(positions, n, top - minBufferPx, 0), IndexAtIntersection(positions, n, top - maxBufferPx, 0))
    ensures var top := positions[IndexAtIntersection(positions, n, offset, n - 1)].offsetFromTop;
      EndProbes(positions, n, minBufferPx, maxBufferPx, offset, n - 1) ==
        (IndexAtIntersection(positions, n, top + minBufferPx, n - 1), IndexAtIntersection(positions, n, top + maxBufferPx, n - 1))
  {
  }

  /** The item found at `offset` (default 0) starts before the total size, unless that size
      is 0. */
  lemma VisibleTopBelowTotal(positions: seq<ItemPosition>, n: nat, offset: int)
    requires Consistent(positions, n) && NonNegativeSizes(positions, n) && 1 <= n
    ensures var top := positions[IndexAtIntersection(positions, n, offset, 0)].offsetFromTop;
      top < EndOfItemOffset(positions, n - 1) || EndOfItemOffset(positions, n - 1) <= 0
  {
    var visible := IndexAtIntersection(positions, n, offset, 0);
    HitExactlyBelowTotal(positions, n, offset, 0);
    OffsetsMonotone(positions, n, visible, visible);
  }

  /** Two start probes, the lower one first, find items in the same order, provided the
      higher probe lies below the total size or that size is 0. */
  lemma StartProbeOrder(positions: seq<ItemPosition>, n: nat, p1: int, p2: int)
    requires Consistent(positions, n) && NonNegativeSizes(positions, n) && 1 <= n
    requires p1 <= p2 && (p2 < EndOfItemOffset(positions, n - 1) || EndOfItemOffset(positions, n - 1) <= 0)
    ensures IndexAtIntersection(positions, n, p1, 0) <= IndexAtIntersection(positions, n, p2, 0)
  {
    HitExactlyBelowTotal(positions, n, p1, 0);
    HitExactlyBelowTotal(positions, n, p2, 0);
    if 0 <= p1 && p2 < EndOfItemOffset(positions, n - 1) {
      IndexAtMonotone(positions, n, p1, p2, 0);
    }
  }

  /** With `0 <= minBufferPx <= maxBufferPx` the end probes are ordered
      `minIndex <= maxIndex`. */
  lemma EndProbesOrdered(positions: seq<ItemPosition>, n: nat, minBufferPx: int, maxBufferPx: int, offset: int)
    requires Consistent(positions, n) && NonNegativeSizes(positions, n) && 1 <= n
    requires 0 <= minBufferPx <= maxBufferPx
    ensures EndProbes(positions, n, minBufferPx, maxBufferPx, offset, n - 1).0 <=
            EndProbes(positions, n, minBufferPx, maxBufferPx, offset, n - 1).1
  {
    var visible := IndexAtIntersection(positions, n, offset, n - 1);
    var top := positions[visible].offsetFromTop;
    ProbesAt(positions, n, minBufferPx, maxBufferPx, offset);
    OffsetsMonotone(positions, n, 0, visible);
    EndProbeOrder(positions, n, top + minBufferPx, top + maxBufferPx);
  }

  /** Two end probes at or after 0, the lower one first, find items in the same order. */
  lemma EndProbeOrder(positions: seq<ItemPosition>, n: nat, p1: int, p2: int)
    requires Consistent(positions, n) && NonNegativeSizes(positions, n) && 1 <= n
    requires 0 <= p1 <= p2
    ensures IndexAtIntersection(positions, n, p1, n - 1) <= IndexAtIntersection(positions, n, p2, n - 1)
  {
    if p2 < EndOfItemOffset(positions, n - 1) {
      IndexAtMonotone(positions, n, p1, p2, n - 1);
    } else {
      HitExactlyBelowTotal(positions, n, p2, n - 1);
    }
  }

  /** Recomputing the range a second time with the same scroll state changes nothing:
      the hysteresis rule settles after one step. */
  lemma RecomputeIsIdempotent(positions: seq<ItemPosition>, n: nat, viewportSize: int, scrollOffset: int,
                              current: ListRange, minBufferPx: int, maxBufferPx: int)
    requires 1 <= n <= |positions|
    ensures var once := RecomputedRange(positions, n, viewportSize, scrollOffset, current, minBufferPx, maxBufferPx);
            RecomputedRange(positions, n, viewportSize, scrollOffset, once, minBufferPx, maxBufferPx) == once
  {
  }
}
