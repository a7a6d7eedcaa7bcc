/** Measuring rendered rows, as `CdkVirtualTable` and `MatVirtualTable` both do it: the size
    of a range of items is the sum of the sizes of the root nodes of the views that render
    them, found in the row outlet at the item's index minus the rendered range's start. */
module OutletMeasure {
  import opened Wrappers
  import opened Collections

  datatype Orientation = Horizontal | Vertical

  /** A root node of a row view: an element has a bounding box (sizes are whole pixels
      here); any other node has none. */
  datatype Node = Node(isElement: bool, width: int, height: int)

  /** `getSize`: a node's extent along `orientation`, or 0 when it is not an element. */
  function GetSize(orientation: Orientation, node: Node): int
  {
    if !node.isElement then 0
    else if orientation == Horizontal then node.width else node.height
  }

  /** The size of one view: the sum over its root nodes. */
  function ViewSize(orientation: Orientation, nodes: seq<Node>): int
  {
    if nodes == [] then 0 else GetSize(orientation, nodes[0]) + ViewSize(orientation, nodes[1..])
  }

  /** `viewContainer.get(k)` on the row outlet: the view's root nodes, or null outside it. */
  function ViewAt(outlet: seq<seq<Node>>, k: int): Option<seq<Node>>
  {
    if 0 <= k < |outlet| then Some(outlet[k]) else None
  }

  /** The size of the views at outlet positions `lo` up to `hi`; a missing view counts 0. */
  function RangeSum(outlet: seq<seq<Node>>, lo: int, hi: int, orientation: Orientation): int
    decreases hi - lo
  {
    if lo >= hi then 0
    else
      var view := ViewAt(outlet, lo);
      (if view.Some? then ViewSize(orientation, view.value) else 0) + RangeSum(outlet, lo + 1, hi, orientation)
  }

  /** Sizes add up over adjacent windows. */
  lemma {:induction false} RangeSumSplit(outlet: seq<seq<Node>>, lo: int, mid: int, hi: int, orientation: Orientation)
    requires lo <= mid <= hi
    ensures RangeSum(outlet, lo, hi, orientation) == RangeSum(outlet, lo, mid, orientation) + RangeSum(outlet, mid, hi, orientation)
    decreases mid - lo
  {
    if lo < mid {
      RangeSumSplit(outlet, lo + 1, mid, hi, orientation);
    }
  }

  /** Every node of the outlet has a non-negative box. */
  ghost predicate NonNegativeBoxes(outlet: seq<seq<Node>>)
  {
    forall k, n :: 0 <= k < |outlet| && n in outlet[k] ==> n.width >= 0 && n.height >= 0
  }

  lemma {:induction false} ViewSizeNonNegative(orientation: Orientation, nodes: seq<Node>)
    requires forall n :: n in nodes ==> n.width >= 0 && n.height >= 0
    ensures ViewSize(orientation, nodes) >= 0
  {
    if nodes != [] {
      ViewSizeNonNegative(orientation, nodes[1..]);
    }
  }

  /** With non-negative boxes, a window never measures negative, and a wider window never
      measures less. */
  lemma {:induction false} RangeSumMonotone(outlet: seq<seq<Node>>, lo: int, hi: int, hi': int, orientation: Orientation)
    requires NonNegativeBoxes(outlet) && hi <= hi'
    ensures 0 <= RangeSum(outlet, lo, hi, orientation) <= RangeSum(outlet, lo, hi', orientation)
    decreases hi' - lo
  {
    if lo < hi' {
      var view := ViewAt(outlet, lo);
      if view.Some? {
        ViewSizeNonNegative(orientation, view.value);
      }
      RangeSumMonotone(outlet, lo + 1, if hi < lo + 1 then lo + 1 else hi, hi', orientation);
      if lo < hi {
        RangeSumMonotone(outlet, lo + 1, hi, hi, orientation);
      }
    }
  }

  /** `getOutletSize`: sums the views at `start` up to `start + length`, last view first and
      each view's root nodes last first. The countdown `while (i--)` stops only from a
      non-negative count, so `length` must not be negative. */
  method GetOutletSize(outlet: seq<seq<Node>>, start: int, length: int, orientation: Orientation) returns (totalSize: int)
    requires length >= 0
    ensures totalSize == RangeSum(outlet, start, start + length, orientation)
  {
    totalSize := 0;
    var i := length;
    while i > 0
      invariant 0 <= i <= length
      invariant totalSize == RangeSum(outlet, start + i, start + length, orientation)
      decreases i
    {
      i := i - 1;
      var view := ViewAt(outlet, i + start);
      var j := if view.Some? then |view.value| else 0;
      ghost var before := totalSize;
      while j > 0
        invariant 0 <= j && (view.Some? ==> j <= |view.value|) && (view.None? ==> j == 0)
        invariant totalSize == before + (if view.Some? then ViewSize(orientation, view.value[j..]) else 0)
        decreases j
      {
        j := j - 1;
        totalSize := totalSize + GetSize(orientation, view.value[j]);
        assert view.value[j..][1..] == view.value[j + 1..];
      }
      if view.Some? {
        assert view.value[0..] == view.value;
      }
    }
  }

  /** Why `measureRangeSize` fails: the range reaches outside the rendered range (it
      throws), or no rendered range has been received yet (reading `start` of an undefined
      range throws). */
  datatype MeasureError = ItemNotRendered | NoRenderedRange

  /** `measureRangeSize` given the rendered range and the row outlet. */
  function MeasureRangeSize(range: ListRange, rendered: Option<ListRange>, outlet: seq<seq<Node>>, orientation: Orientation): (r: Result<int, MeasureError>)
    ensures range.start >= range.end ==> r == Ok(0)
    ensures r.Err? <==> range.start < range.end &&
                        (rendered.None? || range.start < rendered.value.start || range.end > rendered.value.end)
    ensures r.Err? ==> (r.error == NoRenderedRange <==> rendered.None?)
  {
    if range.start >= range.end then Ok(0)
    else if rendered.None? then Err(NoRenderedRange)
    else if range.start < rendered.value.start || range.end > rendered.value.end then Err(ItemNotRendered)
    else
      var renderedStartIndex := range.start - rendered.value.start;
      var rangeLen := range.end - range.start;
      Ok(RangeSum(outlet, renderedStartIndex, renderedStartIndex + rangeLen, orientation))
  }

  /** Measuring a rendered range in two adjacent parts gives the same total as measuring it
      at once. */
  lemma MeasureRangeSizeIsAdditive(start: int, mid: int, end: int, rendered: ListRange, outlet: seq<seq<Node>>, orientation: Orientation)
    requires rendered.start <= start <= mid <= end <= rendered.end
    ensures var whole := MeasureRangeSize(ListRange(start, end), Some(rendered), outlet, orientation);
      var left := MeasureRangeSize(ListRange(start, mid), Some(rendered), outlet, orientation);
      var right := MeasureRangeSize(ListRange(mid, end), Some(rendered), outlet, orientation);
      whole.Ok? && left.Ok? && right.Ok? && whole.value == left.value + right.value
  {
    RangeSumSplit(outlet, start - rendered.start, mid - rendered.start, end - rendered.start, orientation);
  }

  /** With non-negative boxes, a measured size is never negative and a range measures at
      least as much as any rendered range it contains from the same start. */
  lemma MeasureRangeSizeIsMonotone(start: int, end: int, end': int, rendered: ListRange, outlet: seq<seq<Node>>, orientation: Orientation)
    requires NonNegativeBoxes(outlet) && rendered.start <= start && end <= end' <= rendered.end
    ensures var r := MeasureRangeSize(ListRange(start, end), Some(rendered), outlet, orientation);
      var r' := MeasureRangeSize(ListRange(start, end'), Some(rendered), outlet, orientation);
      r.Ok? && r'.Ok? && 0 <= r.value <= r'.value
  {
    if start < end {
      RangeSumMonotone(outlet, start - rendered.start, end - rendered.start, end' - rendered.start, orientation);
    } else if start < end' {
      RangeSumMonotone(outlet, start - rendered.start, start - rendered.start, end' - rendered.start, orientation);
    }
  }

  /** The measurement a table makes: the guards, then `getOutletSize` over the shifted
      window. */
  method Measure(range: ListRange, rendered: Option<ListRange>, outlet: seq<seq<Node>>, orientation: Orientation)
      returns (r: Result<int, MeasureError>)
    ensures r == MeasureRangeSize(range, rendered, outlet, orientation)
  {
    if range.start >= range.end {
      return Ok(0);
    }
    if rendered.None? {
      return Err(NoRenderedRange);
    }
    if range.start < rendered.value.start || range.end > rendered.value.end {
      return Err(ItemNotRendered);
    }
    var renderedStartIndex := range.start - rendered.value.start;
    var rangeLen := range.end - range.start;
    var totalSize := GetOutletSize(outlet, renderedStartIndex, rangeLen, orientation);
    return Ok(totalSize);
  }
}
