/** `MatVirtualTable`: a Material table that renders only the slice of its data inside the
    viewport's rendered range, wraps any input that is not a `DataSource` in an
    `ArrayDataSource`, disconnects the previous data source before connecting the next, and
    measures rendered rows as `CdkVirtualTable` does. */
module MatTable {
  import opened Wrappers
  import opened Collections
  import opened OutletMeasure

  /** An index argument of `Array.prototype.slice` made absolute: a negative index counts
      from the end, and the result is clamped to `[0, len]`. */
  function ClampIndex(i: int, len: nat): (r: nat)
    ensures r <= len
    ensures 0 <= i <= len ==> r == i
    ensures i < 0 ==> r == if len + i < 0 then 0 else len + i
    ensures i > len ==> r == len
  {
    if i < 0 then (if len + i < 0 then 0 else len + i)
    else if i > len then len
    else i
  }

  /** `s.slice(start, end)`. */
  function JsSlice<X>(s: seq<X>, start: int, end: int): (r: seq<X>)
    ensures var a := ClampIndex(start, |s|);
      var b := ClampIndex(end, |s|);
      |r| == (if a < b then b - a else 0) && forall k :: 0 <= k < |r| ==> r[k] == s[a + k]
  {
    var a := ClampIndex(start, |s|);
    var b := ClampIndex(end, |s|);
    if a < b then s[a..b] else []
  }

  /** For a range inside the data, the slice is exactly the range's items. */
  lemma JsSliceOfRangeInside<X>(s: seq<X>, start: int, end: int)
    requires 0 <= start <= end <= |s|
    ensures JsSlice(s, start, end) == s[start..end]
  {
  }

  /** The rendered data for one pair of data and range: nothing before any range arrives,
      and the range's slice afterwards. */
  function RenderedData<T>(data: seq<T>, range: Option<ListRange>): (r: seq<T>)
    ensures range.None? ==> r == []
    ensures |r| <= |data|
  {
    if range.None? then [] else JsSlice(data, range.value.start, range.value.end)
  }

  /** For a rendered range inside the data, the view at outlet position `k` renders item
      `range.start + k`: this is the window `measureRangeSize` measures, where item `i` is
      looked up at position `i - range.start`. */
  lemma RenderedPositionIsItemMinusRangeStart<T>(data: seq<T>, range: ListRange, i: int)
    requires 0 <= range.start <= i < range.end <= |data|
    ensures var rendered := RenderedData(data, Some(range));
      |rendered| == range.end - range.start && rendered[i - range.start] == data[i]
  {
  }

  /** What an `ArrayDataSource` is built over: the observable itself, or a copy of the array. */
  datatype ArrayContent<T> = OverObservable(id: nat) | OverCopy(items: seq<T>)

  /** The data source the table is given: the input's own `DataSource`, or a new
      `ArrayDataSource`. */
  datatype TableDataSource<T> = GivenDataSource(id: nat) | ArrayDataSource(content: ArrayContent<T>)

  /** The `dataSource` setter's choice: a `DataSource` is used as it is; an observable is
      wrapped; an array is copied and wrapped; null or undefined becomes an empty array. */
  function NextDataSource<T>(input: DataSourceInput<T>): (r: TableDataSource<T>)
    ensures input.DataSourceRef? <==> r.GivenDataSource?
    ensures input.DataSourceRef? ==> r == GivenDataSource(input.id)
    ensures input.ObservableRef? ==> r == ArrayDataSource(OverObservable(input.id))
    ensures input.ArrayRef? ==> r == ArrayDataSource(OverCopy(input.items))
    ensures input.Null? || input.Undefined? ==> r == ArrayDataSource(OverCopy([]))
  {
    match input
    case DataSourceRef(id) => GivenDataSource(id)
    case ObservableRef(id) => ArrayDataSource(OverObservable(id))
    case ArrayRef(_, items) => ArrayDataSource(OverCopy(items))
    case Null => ArrayDataSource(OverCopy([]))
    case Undefined => ArrayDataSource(OverCopy([]))
  }

  datatype Connection<T> = Connect(source: TableDataSource<T>) | Disconnect(source: TableDataSource<T>)

  /** The `connect`/`disconnect` calls the data stream makes for the data sources emitted so
      far: each new one after the first disconnects the one before it, then connects. */
  function ConnectionLog<T>(emitted: seq<TableDataSource<T>>): seq<Connection<T>>
  {
    if emitted == [] then []
    else if |emitted| == 1 then [Connect(emitted[0])]
    else ConnectionLog(emitted[..|emitted| - 1]) + [Disconnect(emitted[|emitted| - 2]), Connect(emitted[|emitted| - 1])]
  }

  /** The log alternates: source `k` is connected, then disconnected just before source
      `k + 1` is connected, and only the last source is still connected. */
  lemma {:induction false} ConnectionLogAlternates<T>(emitted: seq<TableDataSource<T>>)
    ensures var log := ConnectionLog(emitted);
      |log| == (if emitted == [] then 0 else 2 * |emitted| - 1) &&
      (forall k :: 0 <= k < |emitted| ==> log[2 * k] == Connect(emitted[k])) &&
      (forall k :: 0 <= k < |emitted| - 1 ==> log[2 * k + 1] == Disconnect(emitted[k]))
    decreases |emitted|
  {
    if |emitted| > 1 {
      var prev := emitted[..|emitted| - 1];
      ConnectionLogAlternates(prev);
      var log := ConnectionLog(emitted);
      forall k | 0 <= k < |emitted|
        ensures log[2 * k] == Connect(emitted[k])
      {
        if k < |prev| {
          assert log[2 * k] == ConnectionLog(prev)[2 * k];
        }
      }
      forall k | 0 <= k < |emitted| - 1
        ensures log[2 * k + 1] == Disconnect(emitted[k])
      {
        if k < |prev| - 1 {
          assert log[2 * k + 1] == ConnectionLog(prev)[2 * k + 1];
        }
      }
    }
  }

  class MatVirtualTable<T> {
    /** The rendered range last used for a slice; undefined until the first one arrives. */
    var renderedRange: Option<ListRange>
    /** The root nodes of each view of the row outlet, in container order. */
    var rowOutlet: seq<seq<Node>>
    /** The data sources emitted on `_dataSourceSubject`, and the connection calls made. */
    var emitted: seq<TableDataSource<T>>
    var connections: seq<Connection<T>>

    constructor ()
      ensures renderedRange == None && rowOutlet == [] && emitted == [] && connections == []
    {
      renderedRange := None;
      rowOutlet := [];
      emitted := [];
      connections := [];
    }

    ghost predicate Valid()
      reads this
    {
      connections == ConnectionLog(emitted)
    }

    /** The `dataSource` setter: the wrapped source is emitted; the previous one is
        disconnected and the new one connected. */
    method SetDataSource(dataSource: DataSourceInput<T>)
      requires Valid()
      modifies this`emitted, this`connections
      ensures Valid()
      ensures emitted == old(emitted) + [NextDataSource(dataSource)]
      ensures old(emitted) == [] ==> connections == [Connect(NextDataSource(dataSource))]
      ensures old(emitted) != [] ==>
        connections == old(connections) + [Disconnect(old(emitted)[|old(emitted)| - 1]), Connect(NextDataSource(dataSource))]
    {
      var next := NextDataSource(dataSource);
      if |emitted| > 0 {
        connections := connections + [Disconnect(emitted[|emitted| - 1])];
      }
      connections := connections + [Connect(next)];
      emitted := emitted + [next];
      assert emitted[..|emitted| - 1] == old(emitted);
    }

    /** One emission of the latest data and range: the rendered slice, with the range
        stored only when there is one. */
    method OnDataAndRange(data: seq<T>, range: Option<ListRange>) returns (slice: seq<T>)
      modifies this`renderedRange
      ensures slice == RenderedData(data, range)
      ensures renderedRange == if range.Some? then range else old(renderedRange)
    {
      if range.None? {
        return [];
      }
      renderedRange := range;
      slice := JsSlice(data, range.value.start, range.value.end);
    }

    /** `measureRangeSize`. */
    method MeasureRangeSize(range: ListRange, orientation: Orientation) returns (r: Result<int, MeasureError>)
      ensures r == OutletMeasure.MeasureRangeSize(range, renderedRange, rowOutlet, orientation)
    {
      r := Measure(range, renderedRange, rowOutlet, orientation);
    }
  }
}
