/** `CdkVirtualTable`: a CDK table inside a virtual scroll viewport. It records each
    rendered range it is told about, measures rendered rows, keeps its sticky header rows in
    place while the rendered content is translated, and forwards a new data source only when
    it differs from the current one. */
module VirtualTable {
  import opened Wrappers
  import opened Collections
  import opened OutletMeasure

  /** A DOM element (a header row or one of its sticky cells). */
  type ElemId = nat

  /** An inline `style.top`: a pixel length, or no length at all. An element without an
      inline `top` has none, and `parseInt` reads it as NaN. A value that is not a length
      (`--40px`, `-NaNpx`) is rejected when assigned, so no element ever holds one. */
  datatype CssTop = Px(n: int) | Malformed

  /** `parseInt(top, 10)`, with NaN as `None`. */
  function ParseTop(t: CssTop): Option<int>
  {
    if t.Px? then Some(t.n) else None
  }

  /** The `top` an element has now; an element with no inline `top` reads as NaN. */
  function TopOf(tops: map<ElemId, CssTop>, e: ElemId): CssTop
  {
    if e in tops then tops[e] else Malformed
  }

  /** `headerRowOffsetCache[index]`: NaN for a NaN entry or an index past the end. */
  function CacheAt(cache: seq<Option<int>>, index: nat): Option<int>
  {
    if index < |cache| then cache[index] else None
  }

  /** `offsetFromTop - headerRowOffsetCache[index]`, NaN when the cached offset is. */
  function RowShift(offsetFromTop: int, cached: Option<int>): Option<int>
  {
    if cached.Some? then Some(offsetFromTop - cached.value) else None
  }

  /** The `top` the source writes, the template `-${offset}px`: a non-negative shift gives
      `-Npx`, a negative one `--Npx` and a NaN one `-NaNpx`, neither of which is a length. */
  function WrittenTop(offset: Option<int>): (r: CssTop)
    ensures r.Px? <==> offset.Some? && offset.value >= 0
    ensures r.Px? ==> r.n == -offset.value
  {
    if offset.Some? && offset.value >= 0 then Px(-offset.value) else Malformed
  }

  /** The `top` evidently intended: minus the shift, whatever its sign. */
  function ShiftedTop(offset: Option<int>): (r: CssTop)
    ensures offset.Some? ==> r == Px(-offset.value)
    ensures offset.None? ==> r == Malformed
  {
    if offset.Some? then Px(-offset.value) else Malformed
  }

  /** The written `top` is the intended one exactly when the shift is not negative. */
  lemma WrittenTopIsShiftedTopIffShiftNonNegative(offset: int)
    ensures WrittenTop(Some(offset)) == ShiftedTop(Some(offset)) <==> offset >= 0
  {
  }

  /** Which `top` a render writes: the source's template, or the intended value. The table
      renders as written; the intended renders are what the findings compare it with. */
  datatype Template = AsWritten | Intended

  function TopFor(t: Template, offset: Option<int>): (r: CssTop)
    ensures offset.Some? && (t.Intended? || offset.value >= 0) ==> r == Px(-offset.value)
    ensures offset.None? || (t.AsWritten? && offset.value < 0) ==> r == Malformed
  {
    if t.AsWritten? then WrittenTop(offset) else ShiftedTop(offset)
  }

  /** With the intended `top`, a header row translated with the content by `offsetFromTop`
      sits at its natural offset `natural`. */
  lemma ShiftedTopKeepsHeaderAtNaturalOffset(offsetFromTop: int, natural: int)
    ensures var top := ParseTop(ShiftedTop(RowShift(offsetFromTop, Some(natural))));
      top.Some? && offsetFromTop + top.value == natural
  {
  }

  /** The offset cache after a render: rebuilt from the current `top` of each row's first
      element when the row count changed, and reused as it is otherwise. */
  function OffsetCacheFor(cache: seq<Option<int>>, tops: map<ElemId, CssTop>, firsts: seq<ElemId>): (r: seq<Option<int>>)
    ensures |r| == |firsts|
    ensures |firsts| == |cache| ==> r == cache
    ensures |firsts| != |cache| ==> forall k :: 0 <= k < |firsts| ==> r[k] == ParseTop(TopOf(tops, firsts[k]))
  {
    if |firsts| != |cache| then seq(|firsts|, k requires 0 <= k < |firsts| => ParseTop(TopOf(tops, firsts[k])))
    else cache
  }

  /** A style assignment: element and the `top` assigned. */
  datatype Write = Write(elem: ElemId, top: CssTop)

  /** The writes of one row: each of its elements gets `top`. */
  function RowWrites(cells: seq<ElemId>, top: CssTop): (r: seq<Write>)
    ensures |r| == |cells| && forall j :: 0 <= j < |cells| ==> r[j] == Write(cells[j], top)
  {
    seq(|cells|, j requires 0 <= j < |cells| => Write(cells[j], top))
  }

  /** The writes of a render: row `k`'s elements, in order, get the template's `top` for
      the shift of cached entry `k`. */
  function Writes(rows: seq<seq<ElemId>>, cache: seq<Option<int>>, offsetFromTop: int, t: Template): seq<Write>
  {
    if rows == [] then []
    else
      var k := |rows| - 1;
      Writes(rows[..k], cache, offsetFromTop, t) + RowWrites(rows[k], TopFor(t, RowShift(offsetFromTop, CacheAt(cache, k))))
  }

  /** The assignments applied one after the other. An assigned value that is not a length
      is rejected and the element keeps its previous `top`. */
  function ApplyWrites(tops: map<ElemId, CssTop>, ws: seq<Write>): map<ElemId, CssTop>
  {
    if ws == [] then tops
    else
      var prev := ApplyWrites(tops, ws[..|ws| - 1]);
      var last := ws[|ws| - 1];
      if last.top.Px? then prev[last.elem := last.top] else prev
  }

  /** The elements assigned to (all of them get `will-change: top`). */
  function Written(ws: seq<Write>): set<ElemId>
  {
    set w | w in ws :: w.elem
  }

  /** The elements assigned a length, which is kept. */
  function Stored(ws: seq<Write>): set<ElemId>
  {
    set w | w in ws && w.top.Px? :: w.elem
  }

  /** The last length assigned to `e`. */
  function LastTop(ws: seq<Write>, e: ElemId): CssTop
    requires e in Stored(ws)
  {
    var last := ws[|ws| - 1];
    if last.elem == e && last.top.Px? then last.top
    else
      assert e in Stored(ws[..|ws| - 1]) by {
        var w :| w in ws && w.top.Px? && w.elem == e;
        assert w in ws[..|ws| - 1] by { assert ws == ws[..|ws| - 1] + [last]; }
      }
      LastTop(ws[..|ws| - 1], e)
  }

  /** After the writes, an element assigned a length has the last length assigned to it,
      and every other element keeps its own `top`, rejected assignments included. */
  lemma {:induction false} ApplyWritesResult(tops: map<ElemId, CssTop>, ws: seq<Write>)
    ensures forall e :: e in ApplyWrites(tops, ws) <==> e in tops || e in Stored(ws)
    ensures forall e :: e in Stored(ws) ==> ApplyWrites(tops, ws)[e] == LastTop(ws, e)
    ensures forall e :: e !in Stored(ws) ==> TopOf(ApplyWrites(tops, ws), e) == TopOf(tops, e)
  {
    if ws != [] {
      var prev := ws[..|ws| - 1];
      var last := ws[|ws| - 1];
      ApplyWritesResult(tops, prev);
      assert ws == prev + [last];
      assert Stored(ws) == Stored(prev) + (if last.top.Px? then {last.elem} else {});
    }
  }

  /** An assignment the style declaration rejects changes nothing. */
  lemma RejectedWriteKeepsTop(tops: map<ElemId, CssTop>, e: ElemId, offset: Option<int>)
    requires !WrittenTop(offset).Px?
    ensures ApplyWrites(tops, [Write(e, WrittenTop(offset))]) == tops
  {
    assert [Write(e, WrittenTop(offset))][..0] == [];
  }

  /** A header row whose natural `top` is 40px while the rendered content starts at 0: the
      written `top` is `--40px`, which is rejected, so the row keeps whatever `top` it had. */
  lemma WrittenTopMalformedWhileContentAboveHeader(tops: map<ElemId, CssTop>, e: ElemId)
    ensures WrittenTop(RowShift(0, Some(40))) == Malformed
    ensures ApplyWrites(tops, [Write(e, WrittenTop(RowShift(0, Some(40))))]) == tops
  {
    RejectedWriteKeepsTop(tops, e, RowShift(0, Some(40)));
  }

  /** Writes split anywhere apply in two goes. */
  lemma {:induction false} ApplyWritesAppend(tops: map<ElemId, CssTop>, a: seq<Write>, b: seq<Write>)
    ensures ApplyWrites(tops, a + b) == ApplyWrites(ApplyWrites(tops, a), b)
    ensures Written(a + b) == Written(a) + Written(b)
    decreases |b|
  {
    if b == [] {
      assert a + b == a;
    } else {
      var last := b[|b| - 1];
      assert (a + b)[..|a + b| - 1] == a + b[..|b| - 1];
      ApplyWritesAppend(tops, a, b[..|b| - 1]);
      assert b == b[..|b| - 1] + [last];
      assert a + b == (a + b[..|b| - 1]) + [last];
    }
  }

  /** Applying the same writes twice is applying them once. */
  lemma ApplyWritesIsIdempotent(tops: map<ElemId, CssTop>, ws: seq<Write>)
    ensures ApplyWrites(ApplyWrites(tops, ws), ws) == ApplyWrites(tops, ws)
  {
    var once := ApplyWrites(tops, ws);
    ApplyWritesResult(tops, ws);
    ApplyWritesResult(once, ws);
    assert ApplyWrites(once, ws).Keys == once.Keys;
    forall e | e in once
      ensures ApplyWrites(once, ws)[e] == once[e]
    {
      if e !in Stored(ws) {
        assert TopOf(ApplyWrites(once, ws), e) == TopOf(once, e);
      }
    }
  }

  /** For writes to distinct elements, an element assigned a length ends with its own. */
  lemma {:induction false} LastTopOfDistinct(ws: seq<Write>, k: nat)
    requires k < |ws| && ws[k].top.Px?
    requires forall i, j :: 0 <= i < j < |ws| ==> ws[i].elem != ws[j].elem
    ensures ws[k].elem in Stored(ws) && LastTop(ws, ws[k].elem) == ws[k].top
  {
    assert ws[k] in ws;
    if k < |ws| - 1 {
      var prev := ws[..|ws| - 1];
      assert prev[k] == ws[k];
      LastTopOfDistinct(prev, k);
    }
  }

  /** Each flex header row is a row of its own. */
  function Singletons(headers: seq<ElemId>): (r: seq<seq<ElemId>>)
    ensures |r| == |headers| && forall k :: 0 <= k < |headers| ==> r[k] == [headers[k]]
  {
    seq(|headers|, k requires 0 <= k < |headers| => [headers[k]])
  }

  /** The writes of a flex render: header `k` is assigned the template's `top` for the
      shift of cached entry `k`, in header order. */
  lemma {:induction false} FlexWritesAt(headers: seq<ElemId>, cache: seq<Option<int>>, offsetFromTop: int, t: Template)
    ensures var ws := Writes(Singletons(headers), cache, offsetFromTop, t);
      |ws| == |headers| &&
      forall k :: 0 <= k < |headers| ==> ws[k] == Write(headers[k], TopFor(t, RowShift(offsetFromTop, CacheAt(cache, k))))
    decreases |headers|
  {
    if headers != [] {
      var n := |headers| - 1;
      assert Singletons(headers)[..n] == Singletons(headers[..n]);
      FlexWritesAt(headers[..n], cache, offsetFromTop, t);
    }
  }

  /** The first sticky cell of each native header row, if every row has one. */
  function FirstCells(cells: seq<seq<ElemId>>): Option<seq<ElemId>>
  {
    if forall k :: 0 <= k < |cells| ==> |cells[k]| > 0 then
      Some(seq(|cells|, k requires 0 <= k < |cells| && |cells[k]| > 0 => cells[k][0]))
    else None
  }

  /** The sticky-row state a render changes. */
  datatype StickyState = StickyState(offsetCache: seq<Option<int>>, cellsCache: seq<seq<ElemId>>, tops: map<ElemId, CssTop>)

  /** `renderFlexHeaderRows`: the offset cache for the rendered header rows, then every header
      row shifted by its cached offset. */
  function RenderFlex(s: StickyState, headers: seq<ElemId>, offsetFromTop: int, t: Template): StickyState
  {
    var cache := OffsetCacheFor(s.offsetCache, s.tops, headers);
    s.(offsetCache := cache, tops := ApplyWrites(s.tops, Writes(Singletons(headers), cache, offsetFromTop, t)))
  }

  /** `renderNativeHeaderRows`: when the header count changed, the cells cache takes the
      sticky cells of each rendered row and the offset cache their first cell's `top` (a row
      without sticky cells makes that throw, after the cells cache changed); then every
      cached cell is shifted by its row's cached offset. Returns whether it threw. */
  function RenderNative(s: StickyState, stickyCells: seq<seq<ElemId>>, offsetFromTop: int, t: Template): (StickyState, bool)
  {
    if |stickyCells| != |s.offsetCache| then
      var firsts := FirstCells(stickyCells);
      if firsts.None? then (s.(cellsCache := stickyCells), true)
      else
        var cache := OffsetCacheFor(s.offsetCache, s.tops, firsts.value);
        (s.(offsetCache := cache, cellsCache := stickyCells,
            tops := ApplyWrites(s.tops, Writes(stickyCells, cache, offsetFromTop, t))), false)
    else
      (s.(tops := ApplyWrites(s.tops, Writes(s.cellsCache, s.offsetCache, offsetFromTop, t))), false)
  }

  /** For writes to distinct elements, each element ends with its own write when that is
      a length, and keeps its own `top` when it is not. */
  lemma DistinctWritesAt(tops: map<ElemId, CssTop>, ws: seq<Write>, k: nat)
    requires forall i, j :: 0 <= i < j < |ws| ==> ws[i].elem != ws[j].elem
    requires k < |ws|
    ensures ws[k].top.Px? ==> TopOf(ApplyWrites(tops, ws), ws[k].elem) == ws[k].top
    ensures !ws[k].top.Px? ==> TopOf(ApplyWrites(tops, ws), ws[k].elem) == TopOf(tops, ws[k].elem)
  {
    ApplyWritesResult(tops, ws);
    if ws[k].top.Px? {
      LastTopOfDistinct(ws, k);
    } else {
      forall w | w in ws && w.top.Px?
        ensures w.elem != ws[k].elem
      {
        var i :| 0 <= i < |ws| && ws[i] == w;
      }
    }
  }

  /** Distinct header rows give writes to distinct elements. */
  lemma FlexWritesDistinct(headers: seq<ElemId>, cache: seq<Option<int>>, offsetFromTop: int, t: Template)
    requires forall i, j :: 0 <= i < j < |headers| ==> headers[i] != headers[j]
    ensures var ws := Writes(Singletons(headers), cache, offsetFromTop, t);
      forall i, j :: 0 <= i < j < |ws| ==> ws[i].elem != ws[j].elem
  {
    FlexWritesAt(headers, cache, offsetFromTop, t);
  }

  /** Write `k` of a flex render, on its own. */
  lemma FlexWriteAt(headers: seq<ElemId>, cache: seq<Option<int>>, offsetFromTop: int, t: Template, k: nat)
    requires k < |headers|
    ensures var ws := Writes(Singletons(headers), cache, offsetFromTop, t);
      k < |ws| && ws[k] == Write(headers[k], TopFor(t, RowShift(offsetFromTop, CacheAt(cache, k))))
  {
    FlexWritesAt(headers, cache, offsetFromTop, t);
  }

  /** After a flex render's writes, distinct header row `k` has the `top` written for it
      when that is a length, and keeps its own otherwise. */
  lemma FlexTopAt(tops: map<ElemId, CssTop>, headers: seq<ElemId>, cache: seq<Option<int>>, offsetFromTop: int, t: Template, k: nat)
    requires forall i, j :: 0 <= i < j < |headers| ==> headers[i] != headers[j]
    requires k < |headers|
    ensures var top := TopFor(t, RowShift(offsetFromTop, CacheAt(cache, k)));
      TopOf(ApplyWrites(tops, Writes(Singletons(headers), cache, offsetFromTop, t)), headers[k]) ==
        if top.Px? then top else TopOf(tops, headers[k])
  {
    var ws := Writes(Singletons(headers), cache, offsetFromTop, t);
    FlexWriteAt(headers, cache, offsetFromTop, t, k);
    FlexWritesDistinct(headers, cache, offsetFromTop, t);
    DistinctWritesAt(tops, ws, k);
  }

  /** Where a flex render leaves each of its (distinct) header rows. With a cached offset,
      the intended render puts the row at the cached offset minus `offsetFromTop`; the
      render as written does so only when the shift is not negative, and otherwise leaves
      the row where it was. A NaN cached offset leaves the row where it was either way. */
  lemma FlexRenderPlacesHeaders(s: StickyState, headers: seq<ElemId>, offsetFromTop: int, t: Template, k: nat)
    requires forall i, j :: 0 <= i < j < |headers| ==> headers[i] != headers[j]
    requires k < |headers|
    ensures var r := RenderFlex(s, headers, offsetFromTop, t);
      var cached := r.offsetCache[k];
      (cached.Some? && (t.Intended? || offsetFromTop >= cached.value) ==>
         TopOf(r.tops, headers[k]) == Px(cached.value - offsetFromTop)) &&
      (cached.None? || (t.AsWritten? && offsetFromTop < cached.value) ==>
         TopOf(r.tops, headers[k]) == TopOf(s.tops, headers[k]))
  {
    var cache := OffsetCacheFor(s.offsetCache, s.tops, headers);
    FlexTopAt(s.tops, headers, cache, offsetFromTop, t, k);
    assert CacheAt(cache, k) == cache[k];
  }

  /** A flex header row whose natural `top` is 40px, rendered with the content translated
      by 100px and then back at 0: as written the second render's `--40px` is rejected and
      the row stays at -60px, 100px above its place; as intended it returns to 40px. */
  lemma StaleHeaderAfterScrollingBack(e: ElemId)
    ensures var s0 := StickyState([], [], map[e := Px(40)]);
      var down := RenderFlex(s0, [e], 100, AsWritten);
      TopOf(down.tops, e) == Px(-60) && TopOf(RenderFlex(down, [e], 0, AsWritten).tops, e) == Px(-60)
    ensures var s0 := StickyState([], [], map[e := Px(40)]);
      var down := RenderFlex(s0, [e], 100, Intended);
      TopOf(down.tops, e) == Px(-60) && TopOf(RenderFlex(down, [e], 0, Intended).tops, e) == Px(40)
  {
    var s0 := StickyState([], [], map[e := Px(40)]);
    var down := RenderFlex(s0, [e], 100, AsWritten);
    FlexRenderPlacesHeaders(s0, [e], 100, AsWritten, 0);
    FlexRenderPlacesHeaders(down, [e], 0, AsWritten, 0);
    var down' := RenderFlex(s0, [e], 100, Intended);
    FlexRenderPlacesHeaders(s0, [e], 100, Intended, 0);
    FlexRenderPlacesHeaders(down', [e], 0, Intended, 0);
  }

  /** A flex render at the same offset over the same header rows changes nothing the
      second time: the cache is reused, so the rows do not drift. */
  lemma RenderFlexIsIdempotent(s: StickyState, headers: seq<ElemId>, offsetFromTop: int, t: Template)
    ensures RenderFlex(RenderFlex(s, headers, offsetFromTop, t), headers, offsetFromTop, t) == RenderFlex(s, headers, offsetFromTop, t)
  {
    var once := RenderFlex(s, headers, offsetFromTop, t);
    ApplyWritesIsIdempotent(s.tops, Writes(Singletons(headers), once.offsetCache, offsetFromTop, t));
  }

  /** The same holds for a native render that did not throw. */
  lemma RenderNativeIsIdempotent(s: StickyState, stickyCells: seq<seq<ElemId>>, offsetFromTop: int, t: Template)
    requires !RenderNative(s, stickyCells, offsetFromTop, t).1
    ensures var once := RenderNative(s, stickyCells, offsetFromTop, t).0;
      RenderNative(once, stickyCells, offsetFromTop, t) == (once, false)
  {
    var once := RenderNative(s, stickyCells, offsetFromTop, t).0;
    ApplyWritesIsIdempotent(s.tops, Writes(once.cellsCache, once.offsetCache, offsetFromTop, t));
  }

  /** The offsets are read from the DOM only when the header count changes: a header row
      that was already shifted and is then counted again is read back at the `top` the
      first render left it at, not its natural one. As written, that is the shifted `top`
      only when the shift was not negative, and the natural one otherwise. */
  lemma RebuiltCacheReadsShiftedTop(natural: int, offsetFromTop: int, e: ElemId, t: Template)
    ensures var shifted := RenderFlex(StickyState([], [], map[e := Px(natural)]), [e], offsetFromTop, t);
      var reread := RenderFlex(shifted.(offsetCache := []), [e], offsetFromTop, t);
      shifted.offsetCache == [Some(natural)] &&
      (t.Intended? || offsetFromTop >= natural ==> reread.offsetCache == [Some(natural - offsetFromTop)]) &&
      (t.AsWritten? && offsetFromTop < natural ==> reread.offsetCache == [Some(natural)])
  {
    var s0 := StickyState([], [], map[e := Px(natural)]);
    FlexRenderPlacesHeaders(s0, [e], offsetFromTop, t, 0);
  }

  class CdkVirtualTable<T(==)> {
    /** The rendered range last received; undefined until the first one arrives. */
    var renderedRange: Option<ListRange>
    /** The ranges forwarded to `viewChange`, in order. */
    var viewChange: seq<ListRange>
    var isNativeHtmlTable: bool
    /** The root nodes of each view of the row outlet, in container order. */
    var rowOutlet: seq<seq<Node>>
    var headerRowOffsetCache: seq<Option<int>>
    var headerRowCellsCache: seq<seq<ElemId>>
    /** The inline `top` of the header rows and cells, and those given `will-change: top`. */
    var styleTop: map<ElemId, CssTop>
    var willChangeTop: set<ElemId>
    var innerDataSource: DataSourceInput<T>
    /** The inputs emitted on `_dataSourceChanges`, each also switched to as a virtual data
        source over `viewChange`. */
    var dataSourceChanges: seq<DataSourceInput<T>>

    constructor (isNativeHtmlTable: bool)
      ensures this.isNativeHtmlTable == isNativeHtmlTable
      ensures renderedRange == None && viewChange == [] && rowOutlet == []
      ensures headerRowOffsetCache == [] && headerRowCellsCache == [] && styleTop == map[] && willChangeTop == {}
      ensures innerDataSource == Undefined && dataSourceChanges == []
    {
      this.isNativeHtmlTable := isNativeHtmlTable;
      renderedRange := None;
      viewChange := [];
      rowOutlet := [];
      headerRowOffsetCache := [];
      headerRowCellsCache := [];
      styleTop := map[];
      willChangeTop := {};
      innerDataSource := Undefined;
      dataSourceChanges := [];
    }

    function Sticky(): StickyState
      reads this
    {
      StickyState(headerRowOffsetCache, headerRowCellsCache, styleTop)
    }

    /** The `dataSource` setter: an input that is not the current one (`!==`) is stored,
        emitted and switched to; the same one again does nothing. */
    method SetDataSource(dataSource: DataSourceInput<T>)
      modifies this`innerDataSource, this`dataSourceChanges
      ensures StrictEquals(old(innerDataSource), dataSource) ==>
        innerDataSource == old(innerDataSource) && dataSourceChanges == old(dataSourceChanges)
      ensures !StrictEquals(old(innerDataSource), dataSource) ==>
        innerDataSource == dataSource && dataSourceChanges == old(dataSourceChanges) + [dataSource]
    {
      if !StrictEquals(dataSource, innerDataSource) {
        innerDataSource := dataSource;
        dataSourceChanges := dataSourceChanges + [dataSource];
      }
    }

    /** A rendered range from the viewport: stored, and forwarded to `viewChange`. */
    method OnRenderedRange(range: ListRange)
      modifies this`renderedRange, this`viewChange
      ensures renderedRange == Some(range) && viewChange == old(viewChange) + [range]
    {
      renderedRange := Some(range);
      viewChange := viewChange + [range];
    }

    /** A scrolled-index change: re-render the sticky rows at the viewport's offset to the
        rendered content, or at 0 when it has none. `headers` are the rendered header rows
        and `stickyCells` their sticky cells. Returns whether the native render threw. */
    method OnScrolledIndexChange(contentOffset: Option<int>, headers: seq<ElemId>, stickyCells: seq<seq<ElemId>>)
        returns (threw: bool)
      modifies this`headerRowOffsetCache, this`headerRowCellsCache, this`styleTop, this`willChangeTop
      ensures var offsetFromTop := if contentOffset.Some? then contentOffset.value else 0;
        isNativeHtmlTable ==> (Sticky(), threw) == RenderNative(old(Sticky()), stickyCells, offsetFromTop, AsWritten)
      ensures var offsetFromTop := if contentOffset.Some? then contentOffset.value else 0;
        !isNativeHtmlTable ==> Sticky() == RenderFlex(old(Sticky()), headers, offsetFromTop, AsWritten) && !threw
    {
      var offsetFromTop := if contentOffset.Some? then contentOffset.value else 0;
      threw := RenderStickyRows(offsetFromTop, headers, stickyCells);
    }

    /** `renderStickyRows`. */
    method RenderStickyRows(offsetFromTop: int, headers: seq<ElemId>, stickyCells: seq<seq<ElemId>>) returns (threw: bool)
      modifies this`headerRowOffsetCache, this`headerRowCellsCache, this`styleTop, this`willChangeTop
      ensures isNativeHtmlTable ==> (Sticky(), threw) == RenderNative(old(Sticky()), stickyCells, offsetFromTop, AsWritten)
      ensures !isNativeHtmlTable ==> Sticky() == RenderFlex(old(Sticky()), headers, offsetFromTop, AsWritten) && !threw
    {
      if isNativeHtmlTable {
        threw := RenderNativeHeaderRows(offsetFromTop, stickyCells);
      } else {
        RenderFlexHeaderRows(offsetFromTop, headers);
        threw := false;
      }
    }

    /** `renderNativeHeaderRows`. */
    method RenderNativeHeaderRows(offsetFromTop: int, stickyCells: seq<seq<ElemId>>) returns (threw: bool)
      modifies this`headerRowOffsetCache, this`headerRowCellsCache, this`styleTop, this`willChangeTop
      ensures (Sticky(), threw) == RenderNative(old(Sticky()), stickyCells, offsetFromTop, AsWritten)
    {
      if |stickyCells| != |headerRowOffsetCache| {
        headerRowCellsCache := stickyCells;
        var firsts := FirstCells(stickyCells);
        if firsts.None? {
          return true;
        }
        headerRowOffsetCache := OffsetCacheFor(headerRowOffsetCache, styleTop, firsts.value);
      }
      ShiftRows(headerRowCellsCache, offsetFromTop);
      threw := false;
    }

    /** `renderFlexHeaderRows`. */
    method RenderFlexHeaderRows(offsetFromTop: int, headers: seq<ElemId>)
      modifies this`headerRowOffsetCache, this`styleTop, this`willChangeTop
      ensures Sticky() == RenderFlex(old(Sticky()), headers, offsetFromTop, AsWritten)
    {
      headerRowOffsetCache := OffsetCacheFor(headerRowOffsetCache, styleTop, headers);
      ShiftRows(Singletons(headers), offsetFromTop);
    }

    /** The write loop both renders share: each element of row `index` gets
        `will-change: top` and `top: -${offset}px` for its row's cached offset. */
    method ShiftRows(rows: seq<seq<ElemId>>, offsetFromTop: int)
      modifies this`styleTop, this`willChangeTop
      ensures styleTop == ApplyWrites(old(styleTop), Writes(rows, headerRowOffsetCache, offsetFromTop, AsWritten))
      ensures willChangeTop == old(willChangeTop) + Written(Writes(rows, headerRowOffsetCache, offsetFromTop, AsWritten))
    {
      for index := 0 to |rows|
        invariant styleTop == ApplyWrites(old(styleTop), Writes(rows[..index], headerRowOffsetCache, offsetFromTop, AsWritten))
        invariant willChangeTop == old(willChangeTop) + Written(Writes(rows[..index], headerRowOffsetCache, offsetFromTop, AsWritten))
      {
        var top := WrittenTop(RowShift(offsetFromTop, CacheAt(headerRowOffsetCache, index)));
        ghost var before := Writes(rows[..index], headerRowOffsetCache, offsetFromTop, AsWritten);
        ShiftRow(rows[index], top);
        assert rows[..index + 1][..index] == rows[..index];
        ApplyWritesAppend(old(styleTop), before, RowWrites(rows[index], top));
      }
      assert rows[..|rows|] == rows;
    }

    /** The inner loop: every element of `cells` gets `will-change: top` and `top`. */
    method ShiftRow(cells: seq<ElemId>, top: CssTop)
      modifies this`styleTop, this`willChangeTop
      ensures styleTop == ApplyWrites(old(styleTop), RowWrites(cells, top))
      ensures willChangeTop == old(willChangeTop) + Written(RowWrites(cells, top))
    {
      for j := 0 to |cells|
        invariant styleTop == ApplyWrites(old(styleTop), RowWrites(cells[..j], top))
        invariant willChangeTop == old(willChangeTop) + Written(RowWrites(cells[..j], top))
      {
        assert RowWrites(cells[..j + 1], top) == RowWrites(cells[..j], top) + [Write(cells[j], top)];
        willChangeTop := willChangeTop + {cells[j]};
        // The style declaration rejects a `top` that is not a length.
        if top.Px? {
          styleTop := styleTop[cells[j] := top];
        }
      }
      assert cells[..|cells|] == cells;
    }

    /** `measureRangeSize`. */
    method MeasureRangeSize(range: ListRange, orientation: Orientation) returns (r: Result<int, MeasureError>)
      ensures r == OutletMeasure.MeasureRangeSize(range, renderedRange, rowOutlet, orientation)
    {
      r := Measure(range, renderedRange, rowOutlet, orientation);
    }
  }
}
