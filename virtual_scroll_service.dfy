/** The viewport controller of `virtual-scroll-service.ts`. Only `rangesEqual` is live code
    there; the `VirtualScrollService` class after it sits inside a block comment and is
    modelled here as the disabled code it is. Asynchrony is made explicit: a change
    detection request queues a callback and schedules at most one flush, and the flush
    (`_doChangeDetection`) is a step the caller takes. */
module ScrollService {
  import opened Wrappers
  import opened Collections
  import opened OutletMeasure

  /** `rangesEqual`: both starts and both ends agree. */
  function RangesEqual(r1: ListRange, r2: ListRange): (r: bool)
    ensures r <==> r1 == r2
  {
    r1.start == r2.start && r1.end == r2.end
  }

  datatype Axis = X | Y

  /** Which edge of the rendered content an offset is measured to. */
  datatype OffsetTo = ToStart | ToEnd

  /** The rendered content's CSS transform: `translate<axis>(<amount>px)`, followed by
      `translate<axis>(-100%)` for an offset to the end. Two transforms are the same string
      exactly when they are the same value. */
  datatype Transform = Transform(axis: Axis, amount: int, to: OffsetTo)

  /** A spacer `style.width`/`style.height` value: `''` or `<n>px`. */
  datatype CssLength = Unset | Px(n: int)

  /** The callbacks queued to run after change detection: the one `setRenderedRange`
      queues, and the one `setRenderedContentOffset` queues. */
  datatype Callback = ContentRendered | OffsetChanged

  /** Calls the service makes on its scroll strategy. */
  datatype StrategyCall = OnContentRendered | OnRenderedOffsetChanged | StrategyDetach

  datatype AttachError = AlreadyAttached

  /** The service's fields. `scheduled` counts the flushes queued as microtasks and not yet
      run; `rangeEmitted` is what `renderedRangeStream` has emitted, and `streamsOpen`
      whether its subject is still open; `appliedTransform` is the transform last written
      to the content wrapper. */
  datatype Service = Service(
    orientation: Orientation, rtl: bool,
    viewport: Option<nat>, forOf: Option<nat>,
    totalContentSize: int, spacerWidth: CssLength, spacerHeight: CssLength,
    transform: Option<Transform>, appliedTransform: Option<Transform>,
    renderedRange: ListRange, rangeEmitted: seq<ListRange>, streamsOpen: bool,
    contentOffset: int, needsRewrite: bool,
    pending: bool, scheduled: nat, queue: seq<Callback>,
    strategyCalls: seq<StrategyCall>)

  /** The state a new service starts in. */
  function Initial(rtl: bool): (s: Service)
    ensures s.orientation == Vertical && s.renderedRange == ListRange(0, 0)
    ensures s.queue == [] && !s.pending && s.scheduled == 0 && !s.needsRewrite
  {
    Service(Vertical, rtl, None, None, 0, Unset, Unset, None, None, ListRange(0, 0), [], true,
            0, false, false, 0, [], [])
  }

  /** `_calculateSpacerSize`: the spacer is as long as the content along the scrolling axis
      and has no size set across it. */
  function SpacerSize(orientation: Orientation, totalContentSize: int): (r: (CssLength, CssLength))
    ensures orientation == Horizontal ==> r == (Px(totalContentSize), Unset)
    ensures orientation == Vertical ==> r == (Unset, Px(totalContentSize))
  {
    (if orientation == Horizontal then Px(totalContentSize) else Unset,
     if orientation == Horizontal then Unset else Px(totalContentSize))
  }

  function WithSpacer(s: Service): Service
  {
    var (w, h) := SpacerSize(s.orientation, s.totalContentSize);
    s.(spacerWidth := w, spacerHeight := h)
  }

  /** `_markChangeDetectionNeeded`: queue the callback, if any, and schedule a flush unless
      one is pending. */
  function Marked(s: Service, runAfter: Option<Callback>): (r: Service)
    ensures r.pending
    ensures r.queue == s.queue + (if runAfter.Some? then [runAfter.value] else [])
    ensures r.scheduled == if s.pending then s.scheduled else s.scheduled + 1
    ensures r.needsRewrite == s.needsRewrite && r.transform == s.transform && r.contentOffset == s.contentOffset
  {
    var queued := s.(queue := s.queue + (if runAfter.Some? then [runAfter.value] else []));
    if s.pending then queued else queued.(pending := true, scheduled := s.scheduled + 1)
  }

  /** The `orientation` setter. */
  function WithOrientation(s: Service, orientation: Orientation): (r: Service)
    ensures orientation == s.orientation ==> r == s
    ensures orientation != s.orientation ==>
      r.orientation == orientation && (r.spacerWidth, r.spacerHeight) == SpacerSize(orientation, s.totalContentSize)
  {
    if s.orientation != orientation then WithSpacer(s.(orientation := orientation)) else s
  }

  /** `setTotalContentSize`: only a new size is stored; it resizes the spacer and requests
      change detection with no callback. */
  function WithTotalContentSize(s: Service, size: int): (r: Service)
    ensures size == s.totalContentSize ==> r == s
    ensures size != s.totalContentSize ==>
      r.totalContentSize == size && (r.spacerWidth, r.spacerHeight) == SpacerSize(s.orientation, size) &&
      r.pending && r.queue == s.queue
  {
    if s.totalContentSize != size then Marked(WithSpacer(s.(totalContentSize := size)), None) else s
  }

  /** `setRenderedRange`: only a range that differs by `rangesEqual` is stored, emitted
      (while the stream is open) and followed by a queued `onContentRendered`. */
  function WithRenderedRange(s: Service, range: ListRange): (r: Service)
    ensures RangesEqual(s.renderedRange, range) ==> r == s
    ensures !RangesEqual(s.renderedRange, range) ==>
      r.renderedRange == range &&
      r.rangeEmitted == s.rangeEmitted + (if s.streamsOpen then [range] else []) &&
      r.queue == s.queue + [ContentRendered] && r.pending
  {
    if RangesEqual(s.renderedRange, range) then s
    else
      var stored := s.(renderedRange := range,
                       rangeEmitted := s.rangeEmitted + (if s.streamsOpen then [range] else []));
      Marked(stored, Some(ContentRendered))
  }

  /** The transform `setRenderedContentOffset` builds: along X for a horizontal viewport,
      with the sign flipped in a right-to-left one. */
  function TransformFor(orientation: Orientation, rtl: bool, offset: int, to: OffsetTo): (r: Transform)
    ensures r.to == to && (r.axis == X <==> orientation == Horizontal)
    ensures r.amount == (if orientation == Horizontal && rtl then -offset else offset)
  {
    var isHorizontal := orientation == Horizontal;
    var axisDirection := if isHorizontal && rtl then -1 else 1;
    Transform(if isHorizontal then X else Y, axisDirection * offset, to)
  }

  /** `setRenderedContentOffset`: the offset is stored; an offset to the end marks it for
      rewriting; a transform that differs from the current one is stored and queues the
      offset callback. */
  function WithContentOffset(s: Service, offset: int, to: OffsetTo): (r: Service)
    ensures var t := TransformFor(s.orientation, s.rtl, offset, to);
      r.contentOffset == offset &&
      r.needsRewrite == (s.needsRewrite || to == ToEnd) &&
      r.transform == Some(t) &&
      r.queue == s.queue + (if s.transform != Some(t) then [OffsetChanged] else []) &&
      r.pending == (s.pending || s.transform != Some(t)) &&
      r.scheduled == (if s.transform != Some(t) && !s.pending then s.scheduled + 1 else s.scheduled)
    ensures r.strategyCalls == s.strategyCalls
  {
    var t := TransformFor(s.orientation, s.rtl, offset, to);
    var stored := s.(contentOffset := offset, needsRewrite := s.needsRewrite || to == ToEnd);
    if s.transform != Some(t) then Marked(stored.(transform := Some(t)), Some(OffsetChanged)) else stored
  }

  /** `getOffsetToRenderedContentStart`: null while an offset to the end awaits rewriting. */
  function OffsetToContentStart(s: Service): (r: Option<int>)
    ensures r.None? <==> s.needsRewrite
    ensures r.Some? ==> r.value == s.contentOffset
  {
    if s.needsRewrite then None else Some(s.contentOffset)
  }

  /** Running one queued callback, with `measured` the rendered content's size: the offset
      callback rewrites an offset to the end as an offset to the start, or else tells the
      strategy the offset changed. */
  function AfterCallback(s: Service, cb: Callback, measured: int): Service
  {
    match cb
    case ContentRendered => s.(strategyCalls := s.strategyCalls + [OnContentRendered])
    case OffsetChanged =>
      if s.needsRewrite then
        WithContentOffset(s.(contentOffset := s.contentOffset - measured, needsRewrite := false),
                          s.contentOffset - measured, ToStart)
      else s.(strategyCalls := s.strategyCalls + [OnRenderedOffsetChanged])
  }

  /** Running callbacks in order. */
  function AfterCallbacks(s: Service, q: seq<Callback>, measured: int): Service
    decreases |q|
  {
    if q == [] then s else AfterCallbacks(AfterCallback(s, q[0], measured), q[1..], measured)
  }

  /** `_doChangeDetection`, run by a scheduled flush: clear the pending flag, apply the
      transform, then take the queue and run it in order; callbacks that request change
      detection again queue into the fresh queue and schedule the next flush. */
  function Flushed(s: Service, measured: int): Service
    requires s.scheduled > 0
  {
    AfterCallbacks(s.(pending := false, scheduled := s.scheduled - 1, appliedTransform := s.transform, queue := []),
                   s.queue, measured)
  }

  /** `attach`: a service holds one viewport for good. */
  function Attached(s: Service, viewport: nat): (r: Result<Service, AttachError>)
    ensures r.Err? <==> s.viewport.Some?
    ensures r.Ok? ==> r.value == s.(viewport := Some(viewport))
  {
    if s.viewport.Some? then Err(AlreadyAttached) else Ok(s.(viewport := Some(viewport)))
  }

  /** `detach`: drops the repeater, detaches the strategy and completes the streams; the
      viewport is kept. */
  function Detached(s: Service): (r: Service)
    ensures r.forOf.None? && !r.streamsOpen && r.viewport == s.viewport
    ensures r.strategyCalls == s.strategyCalls + [StrategyDetach]
  {
    s.(forOf := None, streamsOpen := false, strategyCalls := s.strategyCalls + [StrategyDetach])
  }

  /** `measureRangeSize`, with `repeaterMeasured` what the attached repeater would answer. */
  function RangeSizeMeasured(s: Service, repeaterMeasured: int): (r: int)
    ensures s.forOf.None? ==> r == 0
    ensures s.forOf.Some? ==> r == repeaterMeasured
  {
    if s.forOf.None? then 0 else repeaterMeasured
  }

  /** The batching invariant, with `rest` the callbacks of a running flush not yet run:
      exactly one flush is scheduled while the pending flag is set and none otherwise; a
      queued callback implies a pending flush; an offset awaiting rewriting has an offset
      callback still to run; and a transform to the end is always awaiting rewriting. */
  ghost predicate Batched(s: Service, rest: seq<Callback>)
  {
    s.scheduled == (if s.pending then 1 else 0) &&
    (s.queue != [] ==> s.pending) &&
    (s.needsRewrite ==> OffsetChanged in s.queue + rest) &&
    (s.transform.Some? && s.transform.value.to == ToEnd ==> s.needsRewrite)
  }

  ghost predicate Valid(s: Service)
  {
    Batched(s, [])
  }

  lemma InitialIsValid(rtl: bool)
    ensures Valid(Initial(rtl))
  {
  }

  /** The setters keep the invariant. */
  lemma SettersKeepValid(s: Service, orientation: Orientation, size: int, range: ListRange, offset: int, to: OffsetTo)
    requires Valid(s)
    ensures Valid(WithOrientation(s, orientation))
    ensures Valid(WithTotalContentSize(s, size))
    ensures Valid(WithRenderedRange(s, range))
    ensures Valid(WithContentOffset(s, offset, to))
  {
    RenderedRangeKeepsValid(s, range);
    ContentOffsetKeepsValid(s, offset, to);
  }

  /** A new range queues its callback behind the ones already queued, so an offset awaiting
      rewriting still has its offset callback queued. */
  lemma RenderedRangeKeepsValid(s: Service, range: ListRange)
    requires Valid(s)
    ensures Valid(WithRenderedRange(s, range))
  {
    if !RangesEqual(s.renderedRange, range) && s.needsRewrite {
      assert OffsetChanged in WithRenderedRange(s, range).queue;
    }
  }

  /** An offset awaiting rewriting keeps an offset callback queued: a new transform queues
      one, and an unchanged transform to the end was already awaiting its own. */
  lemma ContentOffsetKeepsValid(s: Service, offset: int, to: OffsetTo)
    requires Valid(s)
    ensures Valid(WithContentOffset(s, offset, to))
  {
    var c := WithContentOffset(s, offset, to);
    if c.needsRewrite {
      assert s.queue + [] == s.queue;
      assert OffsetChanged in c.queue + [];
    }
  }

  /** `attach` and `detach` keep the invariant. */
  lemma AttachDetachKeepValid(s: Service, viewport: nat)
    requires Valid(s)
    ensures Attached(s, viewport).Ok? ==> Valid(Attached(s, viewport).value)
    ensures Valid(Detached(s))
  {
  }

  /** Running one callback of a flush keeps the invariant for the callbacks after it. */
  lemma AfterCallbackKeepsBatched(s: Service, cb: Callback, rest: seq<Callback>, measured: int)
    requires Batched(s, [cb] + rest)
    ensures Batched(AfterCallback(s, cb, measured), rest)
  {
    var r := AfterCallback(s, cb, measured);
    if cb == ContentRendered && s.needsRewrite {
      assert OffsetChanged in s.queue + [cb] + rest;
      assert s.queue + [cb] + rest == s.queue + ([cb] + rest);
      assert OffsetChanged in s.queue || OffsetChanged in rest;
    }
    if cb == OffsetChanged && !s.needsRewrite {
      assert r.needsRewrite == s.needsRewrite;
    }
  }

  lemma {:induction false} AfterCallbacksKeepsBatched(s: Service, q: seq<Callback>, measured: int)
    requires Batched(s, q)
    ensures Valid(AfterCallbacks(s, q, measured))
    decreases |q|
  {
    if q == [] {
      assert s.queue + [] == s.queue;
    } else {
      assert q == [q[0]] + q[1..];
      AfterCallbackKeepsBatched(s, q[0], q[1..], measured);
      AfterCallbacksKeepsBatched(AfterCallback(s, q[0], measured), q[1..], measured);
    }
  }

  /** A flush keeps the invariant, and only a flush that was scheduled can run. */
  lemma FlushKeepsValid(s: Service, measured: int)
    requires Valid(s) && s.pending
    ensures s.scheduled > 0 && Valid(Flushed(s, measured))
  {
    var f := s.(pending := false, scheduled := s.scheduled - 1, appliedTransform := s.transform, queue := []);
    assert [] + s.queue == s.queue && s.queue + [] == s.queue;
    assert Batched(f, s.queue);
    AfterCallbacksKeepsBatched(f, s.queue, measured);
  }

  /** Without an offset awaiting rewriting, callbacks leave the offset alone. */
  lemma {:induction false} NoRewriteKeepsOffset(s: Service, q: seq<Callback>, measured: int)
    requires !s.needsRewrite
    ensures var r := AfterCallbacks(s, q, measured);
      !r.needsRewrite && r.contentOffset == s.contentOffset
    decreases |q|
  {
    if q != [] {
      NoRewriteKeepsOffset(AfterCallback(s, q[0], measured), q[1..], measured);
    }
  }

  /** With an offset awaiting rewriting, the first offset callback run subtracts the
      measured content size once and clears the flag. */
  lemma {:induction false} RewriteHappensOnce(s: Service, q: seq<Callback>, measured: int)
    requires s.needsRewrite && OffsetChanged in q
    ensures var r := AfterCallbacks(s, q, measured);
      !r.needsRewrite && r.contentOffset == s.contentOffset - measured
    decreases |q|
  {
    var next := AfterCallback(s, q[0], measured);
    if q[0] == OffsetChanged {
      NoRewriteKeepsOffset(next, q[1..], measured);
    } else {
      assert q == [q[0]] + q[1..];
      assert OffsetChanged in q[1..];
      RewriteHappensOnce(next, q[1..], measured);
    }
  }

  /** An offset to the end reads as null until the next flush, which rewrites it as the
      offset to the start: the given offset minus the measured content size. */
  lemma ToEndOffsetIsRewrittenByFlush(s: Service, offset: int, measured: int)
    requires Valid(s)
    ensures var s1 := WithContentOffset(s, offset, ToEnd);
      OffsetToContentStart(s1) == None && s1.pending && s1.scheduled > 0 &&
      OffsetToContentStart(Flushed(s1, measured)) == Some(offset - measured)
  {
    var s1 := WithContentOffset(s, offset, ToEnd);
    SettersKeepValid(s, s.orientation, s.totalContentSize, s.renderedRange, offset, ToEnd);
    assert s1.queue + [] == s1.queue;
    FlushKeepsValid(s1, measured);
    var f := s1.(pending := false, scheduled := s1.scheduled - 1, appliedTransform := s1.transform, queue := []);
    RewriteHappensOnce(f, s1.queue, measured);
  }

  /** While an offset awaits rewriting, no setter makes it readable. */
  lemma RewriteSurvivesSetters(s: Service, orientation: Orientation, size: int, range: ListRange, offset: int, to: OffsetTo)
    requires s.needsRewrite
    ensures OffsetToContentStart(WithOrientation(s, orientation)).None?
    ensures OffsetToContentStart(WithTotalContentSize(s, size)).None?
    ensures OffsetToContentStart(WithRenderedRange(s, range)).None?
    ensures OffsetToContentStart(WithContentOffset(s, offset, to)).None?
  {
  }

  /** The strategy calls the callbacks make when no offset awaits rewriting. */
  function CallsOf(q: seq<Callback>): (r: seq<StrategyCall>)
    ensures |r| == |q|
  {
    if q == [] then []
    else [if q[0] == ContentRendered then OnContentRendered else OnRenderedOffsetChanged] + CallsOf(q[1..])
  }

  /** Without an offset awaiting rewriting, a flush clears the flag, empties the queue,
      applies the transform and runs every callback once, in the order queued. */
  lemma FlushRunsQueueInOrder(s: Service, measured: int)
    requires s.scheduled > 0 && !s.needsRewrite
    ensures var r := Flushed(s, measured);
      !r.pending && r.queue == [] && r.appliedTransform == s.transform &&
      r.strategyCalls == s.strategyCalls + CallsOf(s.queue)
  {
    var f := s.(pending := false, scheduled := s.scheduled - 1, appliedTransform := s.transform, queue := []);
    CallbacksInOrder(f, s.queue, measured);
  }

  lemma {:induction false} CallbacksInOrder(s: Service, q: seq<Callback>, measured: int)
    requires !s.needsRewrite
    ensures AfterCallbacks(s, q, measured) == s.(strategyCalls := s.strategyCalls + CallsOf(q))
    decreases |q|
  {
    if q == [] {
      assert s.strategyCalls + [] == s.strategyCalls;
    } else {
      var next := AfterCallback(s, q[0], measured);
      CallbackWithoutRewrite(s, q[0], measured);
      CallbacksInOrder(next, q[1..], measured);
      assert next.strategyCalls + CallsOf(q[1..]) == s.strategyCalls + CallsOf(q);
    }
  }

  /** Without an offset awaiting rewriting, one callback only appends its strategy call. */
  lemma CallbackWithoutRewrite(s: Service, cb: Callback, measured: int)
    requires !s.needsRewrite
    ensures AfterCallback(s, cb, measured) == s.(strategyCalls := s.strategyCalls + CallsOf([cb]))
  {
  }

  /** Setting the same range or size twice is the same as setting it once. */
  lemma SettersAreIdempotent(s: Service, size: int, range: ListRange)
    ensures WithTotalContentSize(WithTotalContentSize(s, size), size) == WithTotalContentSize(s, size)
    ensures WithRenderedRange(WithRenderedRange(s, range), range) == WithRenderedRange(s, range)
  {
  }

  /** `detach` does not release the viewport, so a detached service cannot be attached
      again; it measures every range as 0 and emits no more ranges. */
  lemma DetachIsFinal(s: Service, viewport: nat, other: nat, range: ListRange, repeaterMeasured: int)
    requires Attached(s, viewport).Ok?
    ensures Attached(Detached(Attached(s, viewport).value), other).Err?
    ensures RangeSizeMeasured(Detached(s), repeaterMeasured) == 0
    ensures WithRenderedRange(Detached(s), range).rangeEmitted == s.rangeEmitted
  {
  }

  class VirtualScrollService {
    var orientation: Orientation
    /** Whether `Directionality` says right-to-left. */
    const rtl: bool
    var viewport: Option<nat>
    var forOf: Option<nat>
    var totalContentSize: int
    var totalContentWidth: CssLength
    var totalContentHeight: CssLength
    var renderedContentTransform: Option<Transform>
    var appliedTransform: Option<Transform>
    var renderedRange: ListRange
    var renderedRangeStream: seq<ListRange>
    var subjectsOpen: bool
    var renderedContentOffset: int
    var renderedContentOffsetNeedsRewrite: bool
    var isChangeDetectionPending: bool
    var scheduledFlushes: nat
    var runAfterChangeDetection: seq<Callback>
    var strategyCalls: seq<StrategyCall>

    function State(): Service
      reads this
    {
      Service(orientation, rtl, viewport, forOf, totalContentSize, totalContentWidth, totalContentHeight,
              renderedContentTransform, appliedTransform, renderedRange, renderedRangeStream, subjectsOpen,
              renderedContentOffset, renderedContentOffsetNeedsRewrite,
              isChangeDetectionPending, scheduledFlushes, runAfterChangeDetection, strategyCalls)
    }

    constructor (isRtl: bool)
      ensures State() == Initial(isRtl)
    {
      orientation := Vertical;
      rtl := isRtl;
      viewport := None;
      forOf := None;
      totalContentSize := 0;
      totalContentWidth := Unset;
      totalContentHeight := Unset;
      renderedContentTransform := None;
      appliedTransform := None;
      renderedRange := ListRange(0, 0);
      renderedRangeStream := [];
      subjectsOpen := true;
      renderedContentOffset := 0;
      renderedContentOffsetNeedsRewrite := false;
      isChangeDetectionPending := false;
      scheduledFlushes := 0;
      runAfterChangeDetection := [];
      strategyCalls := [];
    }

    method SetOrientation(o: Orientation)
      modifies this
      ensures State() == WithOrientation(old(State()), o)
    {
      if orientation != o {
        orientation := o;
        CalculateSpacerSize();
      }
    }

    method Attach(viewportId: nat) returns (r: Result<(), AttachError>)
      modifies this
      ensures r.Ok? <==> Attached(old(State()), viewportId).Ok?
      ensures r.Ok? ==> State() == Attached(old(State()), viewportId).value
      ensures r.Err? ==> State() == old(State())
    {
      if viewport.Some? {
        return Err(AlreadyAttached);
      }
      viewport := Some(viewportId);
      return Ok(());
    }

    method Detach()
      modifies this
      ensures State() == Detached(old(State()))
    {
      forOf := None;
      strategyCalls := strategyCalls + [StrategyDetach];
      subjectsOpen := false;
    }

    method SetTotalContentSize(size: int)
      modifies this
      ensures State() == WithTotalContentSize(old(State()), size)
    {
      if totalContentSize != size {
        ghost var s0 := State();
        totalContentSize := size;
        assert State() == s0.(totalContentSize := size);
        CalculateSpacerSize();
        MarkChangeDetectionNeeded(None);
      }
    }

    method SetRenderedRange(range: ListRange)
      modifies this
      ensures State() == WithRenderedRange(old(State()), range)
    {
      if !RangesEqual(renderedRange, range) {
        ghost var s0 := State();
        renderedRange := range;
        if subjectsOpen {
          renderedRangeStream := renderedRangeStream + [range];
        }
        assert State() == s0.(renderedRange := range,
                              rangeEmitted := s0.rangeEmitted + (if s0.streamsOpen then [range] else []));
        MarkChangeDetectionNeeded(Some(ContentRendered));
      }
    }

    method GetOffsetToRenderedContentStart() returns (r: Option<int>)
      ensures r == OffsetToContentStart(State())
    {
      r := if renderedContentOffsetNeedsRewrite then None else Some(renderedContentOffset);
    }

    method SetRenderedContentOffset(offset: int, to: OffsetTo)
      modifies this
      ensures State() == WithContentOffset(old(State()), offset, to)
    {
      var isHorizontal := orientation == Horizontal;
      var axis := if isHorizontal then X else Y;
      var axisDirection := if isHorizontal && rtl then -1 else 1;
      var transform := Transform(axis, axisDirection * offset, to);
      renderedContentOffset := offset;
      if to == ToEnd {
        renderedContentOffsetNeedsRewrite := true;
      }
      if renderedContentTransform != Some(transform) {
        renderedContentTransform := Some(transform);
        MarkChangeDetectionNeeded(Some(OffsetChanged));
      }
    }

    /** `measureRangeSize`; `repeaterMeasured` is the attached repeater's answer. */
    method MeasureRangeSize(repeaterMeasured: int) returns (r: int)
      ensures r == RangeSizeMeasured(State(), repeaterMeasured)
    {
      if forOf.None? {
        return 0;
      }
      return repeaterMeasured;
    }

    method MarkChangeDetectionNeeded(runAfter: Option<Callback>)
      modifies this
      ensures State() == Marked(old(State()), runAfter)
    {
      if runAfter.Some? {
        runAfterChangeDetection := runAfterChangeDetection + [runAfter.value];
      }
      if !isChangeDetectionPending {
        isChangeDetectionPending := true;
        scheduledFlushes := scheduledFlushes + 1;
      }
    }

    /** One queued callback; `measured` is `measureRenderedContentSize()`. */
    method RunCallback(cb: Callback, measured: int)
      modifies this
      ensures State() == AfterCallback(old(State()), cb, measured)
    {
      match cb
      case ContentRendered =>
        strategyCalls := strategyCalls + [OnContentRendered];
      case OffsetChanged =>
        if renderedContentOffsetNeedsRewrite {
          ghost var s0 := State();
          renderedContentOffset := renderedContentOffset - measured;
          renderedContentOffsetNeedsRewrite := false;
          assert State() == s0.(contentOffset := s0.contentOffset - measured, needsRewrite := false);
          SetRenderedContentOffset(renderedContentOffset, ToStart);
        } else {
          strategyCalls := strategyCalls + [OnRenderedOffsetChanged];
        }
    }

    /** `_doChangeDetection`, run by one scheduled flush. */
    method DoChangeDetection(measured: int)
      requires scheduledFlushes > 0
      modifies this
      ensures State() == Flushed(old(State()), measured)
    {
      isChangeDetectionPending := false;
      scheduledFlushes := scheduledFlushes - 1;
      appliedTransform := renderedContentTransform;
      var fns := runAfterChangeDetection;
      runAfterChangeDetection := [];
      ghost var start := State();
      for i := 0 to |fns|
        invariant AfterCallbacks(State(), fns[i..], measured) == AfterCallbacks(start, fns, measured)
      {
        assert fns[i..][1..] == fns[i + 1..];
        RunCallback(fns[i], measured);
      }
    }

    method CalculateSpacerSize()
      modifies this
      ensures State() == WithSpacer(old(State()))
    {
      totalContentHeight := if orientation == Horizontal then Unset else Px(totalContentSize);
      totalContentWidth := if orientation == Horizontal then Px(totalContentSize) else Unset;
    }
  }
}
