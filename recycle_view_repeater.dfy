/** `RecycleViewRepeaterStrategy`: views taken out of the container are kept in a bounded
    cache and handed back, newest first, when an item is added. */
module RecycleViewRepeater {
  import opened Wrappers
  import opened ViewContainers
  import opened ViewRepeater

  /** The template cache, the container, and the events sent so far. */
  datatype RepeaterState<T, R> = RepeaterState(cache: seq<ViewId>, views: Views<T>, log: seq<ViewChange<R>>)

  /** What `_insertView` needs: room at `currentIndex` for a cached view, or room at the
      factory's index for a new one. */
  predicate InsertFits<T>(cache: seq<ViewId>, views: Views<T>, currentIndex: nat, args: InsertArgs<T>)
  {
    if |cache| > 0 then currentIndex <= |views.attached|
    else args.index.Some? ==> args.index.value <= |views.attached|
  }

  /** `_insertView`: pop the newest cached view and insert it at `currentIndex`, or, with an
      empty cache, create a view from the factory's arguments. Returns the new cache, the
      container and the view. */
  function ViewInserted<T>(cache: seq<ViewId>, views: Views<T>, currentIndex: nat, args: InsertArgs<T>): (seq<ViewId>, Views<T>, ViewId)
    requires InsertFits(cache, views, currentIndex, args)
  {
    if |cache| > 0 then
      var v := cache[|cache| - 1];
      (cache[..|cache| - 1], views.(attached := InsertAt(views.attached, currentIndex, v)), v)
    else
      (cache, WithEmbeddedView(views, args.context, args.index), views.nextId)
  }

  /** `_maybeCacheView`: keep `v` when the cache has room; otherwise destroy it, through the
      container if the container still holds it. */
  function ViewMaybeCached<T>(cache: seq<ViewId>, views: Views<T>, v: ViewId, cacheSize: int): (seq<ViewId>, Views<T>)
  {
    if |cache| < cacheSize then (cache + [v], views)
    else
      var i := FirstIndex(views.attached, v);
      if i == -1 then (cache, views.(destroyed := views.destroyed + {v}))
      else (cache, views.(attached := RemoveAt(views.attached, i), destroyed := views.destroyed + {v}))
  }

  /** `_detachAndCacheView`: detach the view at `index`, then cache or destroy it. */
  function ViewDetachedAndCached<T>(cache: seq<ViewId>, views: Views<T>, index: nat, cacheSize: int): (seq<ViewId>, Views<T>)
    requires index < |views.attached|
  {
    ViewMaybeCached(cache, views.(attached := RemoveAt(views.attached, index)), views.attached[index], cacheSize)
  }

  /** `_moveView`: move the view at `adjustedPreviousIndex` to `currentIndex`. */
  function ViewMoved<T>(views: Views<T>, adjustedPreviousIndex: nat, currentIndex: nat): (Views<T>, ViewId)
    requires adjustedPreviousIndex < |views.attached| && currentIndex < |views.attached|
  {
    var v := views.attached[adjustedPreviousIndex];
    (views.(attached := ContainerMove(views.attached, v, currentIndex)), v)
  }

  /** Whether the container has the indices `c` refers to. */
  predicate Fits<T, R>(s: RepeaterState<T, R>, c: Change<R>, cfg: Config<T, R>)
  {
    match c
    case Insert(record, currentIndex) =>
      InsertFits(s.cache, s.views, currentIndex, cfg.contextFactory(record, currentIndex))
    case Remove(_, p) => p < |s.views.attached|
    case Move(_, p, currentIndex) => p < |s.views.attached| && currentIndex < |s.views.attached|
  }

  function SetImplicit<T>(views: Views<T>, v: ViewId, x: T): Views<T>
  {
    views.(implicit := views.implicit[v := Some(x)])
  }

  /** One step of `applyChanges`. */
  function ApplyChange<T, R>(s: RepeaterState<T, R>, c: Change<R>, cacheSize: int, cfg: Config<T, R>): RepeaterState<T, R>
    requires Fits(s, c, cfg)
  {
    match c
    case Insert(record, currentIndex) =>
      var (cache, views, v) := ViewInserted(s.cache, s.views, currentIndex, cfg.contextFactory(record, currentIndex));
      RepeaterState(cache, SetImplicit(views, v, cfg.valueResolver(record)),
                    Notify(s.log, cfg.notify, ViewChange(Inserted, record, Some(v))))
    case Remove(record, p) =>
      var (cache, views) := ViewDetachedAndCached(s.cache, s.views, p, cacheSize);
      RepeaterState(cache, views, Notify(s.log, cfg.notify, ViewChange(Removed, record, None)))
    case Move(record, p, currentIndex) =>
      var (views, v) := ViewMoved(s.views, p, currentIndex);
      RepeaterState(s.cache, SetImplicit(views, v, cfg.valueResolver(record)),
                    Notify(s.log, cfg.notify, ViewChange(Moved, record, Some(v))))
  }

  /** Whether every change of `changes` fits the state the ones before it leave. */
  ghost predicate AllFit<T, R>(s: RepeaterState<T, R>, changes: seq<Change<R>>, cacheSize: int, cfg: Config<T, R>)
    decreases |changes|, 0
  {
    changes == [] ||
    (AllFit(s, changes[..|changes| - 1], cacheSize, cfg) &&
     Fits(ApplyAll(s, changes[..|changes| - 1], cacheSize, cfg), changes[|changes| - 1], cfg))
  }

  /** `applyChanges`: the changes applied one after the other. */
  function ApplyAll<T, R>(s: RepeaterState<T, R>, changes: seq<Change<R>>, cacheSize: int, cfg: Config<T, R>): RepeaterState<T, R>
    requires AllFit(s, changes, cacheSize, cfg)
    decreases |changes|, 1
  {
    if changes == [] then s
    else ApplyChange(ApplyAll(s, changes[..|changes| - 1], cacheSize, cfg), changes[|changes| - 1], cacheSize, cfg)
  }

  lemma {:induction false} AllFitPrefix<T, R>(s: RepeaterState<T, R>, changes: seq<Change<R>>, i: nat, cacheSize: int, cfg: Config<T, R>)
    requires AllFit(s, changes, cacheSize, cfg) && i <= |changes|
    ensures AllFit(s, changes[..i], cacheSize, cfg)
    decreases |changes|
  {
    if i < |changes| {
      assert changes[..|changes| - 1][..i] == changes[..i];
      AllFitPrefix(s, changes[..|changes| - 1], i, cacheSize, cfg);
    } else {
      assert changes[..i] == changes;
    }
  }

  /** The fold over the first `i + 1` changes is one more step after the fold over the first
      `i`. */
  lemma ApplyAllStep<T, R>(s: RepeaterState<T, R>, changes: seq<Change<R>>, i: nat, cacheSize: int, cfg: Config<T, R>)
    requires i < |changes| && AllFit(s, changes[..i + 1], cacheSize, cfg)
    ensures AllFit(s, changes[..i], cacheSize, cfg)
    ensures Fits(ApplyAll(s, changes[..i], cacheSize, cfg), changes[i], cfg)
    ensures ApplyAll(s, changes[..i + 1], cacheSize, cfg) ==
      ApplyChange(ApplyAll(s, changes[..i], cacheSize, cfg), changes[i], cacheSize, cfg)
  {
    assert changes[..i + 1][..i] == changes[..i];
  }

  /** A view taken from a cache whose views are tracked is not in the container, so it is
      inserted once; a view detached from a tracked container is no longer in it, so with a
      full cache it is destroyed on its own and never removed a second time. */
  lemma DetachedViewIsGone<T>(views: Views<T>, cache: seq<ViewId>, index: nat)
    requires Tracked(views, cache) && index < |views.attached|
    ensures views.attached[index] !in RemoveAt(views.attached, index)
    ensures views.attached[index] !in cache
  {
    var v := views.attached[index];
    var live := multiset(views.attached + cache);
    assert v in live;
    RemoveAtMultiset(views.attached, index);
    assert multiset(views.attached + cache) == multiset(views.attached) + multiset(cache);
    assert live[v] == multiset(views.attached)[v] + multiset(cache)[v];
    assert multiset(views.attached)[v] >= 1;
  }

  /** With a full cache, removing the view at `index` destroys exactly that view and leaves
      the container as it would be after `remove(index)`. */
  lemma RemoveWithFullCacheDestroys<T>(views: Views<T>, cache: seq<ViewId>, index: nat, cacheSize: int)
    requires Tracked(views, cache) && index < |views.attached| && |cache| >= cacheSize
    ensures ViewDetachedAndCached(cache, views, index, cacheSize) ==
            (cache, views.(attached := RemoveAt(views.attached, index),
                           destroyed := views.destroyed + {views.attached[index]}))
  {
    DetachedViewIsGone(views, cache, index);
  }

  lemma InsertKeepsTracked<T, R>(s: RepeaterState<T, R>, record: R, currentIndex: nat, cacheSize: int, cfg: Config<T, R>)
    requires Tracked(s.views, s.cache) && Fits(s, Insert(record, currentIndex), cfg)
    ensures var t := ApplyChange(s, Insert(record, currentIndex), cacheSize, cfg); Tracked(t.views, t.cache)
  {
    var t := ApplyChange(s, Insert(record, currentIndex), cacheSize, cfg);
    assert multiset(t.views.attached + t.cache) == multiset(t.views.attached) + multiset(t.cache);
    assert multiset(s.views.attached + s.cache) == multiset(s.views.attached) + multiset(s.cache);
    if |s.cache| > 0 {
      var v := s.cache[|s.cache| - 1];
      assert s.cache == t.cache + [v];
      InsertAtMultiset(s.views.attached, currentIndex, v);
      TrackedSameLive(s.views, s.cache, t.views, t.cache);
    } else {
      TrackedAfterCreate(s.views, s.cache, t.views, t.cache);
    }
  }

  lemma RemoveKeepsTracked<T, R>(s: RepeaterState<T, R>, record: R, p: nat, cacheSize: int, cfg: Config<T, R>)
    requires Tracked(s.views, s.cache) && Fits(s, Remove(record, p), cfg)
    ensures var t := ApplyChange(s, Remove(record, p), cacheSize, cfg); Tracked(t.views, t.cache)
  {
    var t := ApplyChange(s, Remove(record, p), cacheSize, cfg);
    var v := s.views.attached[p];
    DetachedViewIsGone(s.views, s.cache, p);
    RemoveAtMultiset(s.views.attached, p);
    assert multiset(t.views.attached + t.cache) == multiset(t.views.attached) + multiset(t.cache);
    assert multiset(s.views.attached + s.cache) == multiset(s.views.attached) + multiset(s.cache);
    if |s.cache| < cacheSize {
      assert t.cache == s.cache + [v];
      TrackedSameLive(s.views, s.cache, t.views, t.cache);
    } else {
      TrackedAfterDestroy(s.views, s.cache, t.views, t.cache, v);
    }
  }

  lemma MoveKeepsTracked<T, R>(s: RepeaterState<T, R>, record: R, p: nat, currentIndex: nat, cacheSize: int, cfg: Config<T, R>)
    requires Tracked(s.views, s.cache) && Fits(s, Move(record, p, currentIndex), cfg)
    ensures var t := ApplyChange(s, Move(record, p, currentIndex), cacheSize, cfg); Tracked(t.views, t.cache)
  {
    var t := ApplyChange(s, Move(record, p, currentIndex), cacheSize, cfg);
    ContainerMoveKeepsViews(s.views.attached, s.views.attached[p], currentIndex);
    assert multiset(t.views.attached + t.cache) == multiset(t.views.attached) + multiset(t.cache);
    assert multiset(s.views.attached + s.cache) == multiset(s.views.attached) + multiset(s.cache);
    TrackedSameLive(s.views, s.cache, t.views, t.cache);
  }

  /** One change keeps every view tracked. */
  lemma ApplyChangeKeepsTracked<T, R>(s: RepeaterState<T, R>, c: Change<R>, cacheSize: int, cfg: Config<T, R>)
    requires Tracked(s.views, s.cache) && Fits(s, c, cfg)
    ensures var t := ApplyChange(s, c, cacheSize, cfg); Tracked(t.views, t.cache)
  {
    match c
    case Insert(record, currentIndex) => InsertKeepsTracked(s, record, currentIndex, cacheSize, cfg);
    case Remove(record, p) => RemoveKeepsTracked(s, record, p, cacheSize, cfg);
    case Move(record, p, currentIndex) => MoveKeepsTracked(s, record, p, currentIndex, cacheSize, cfg);
  }

  /** `applyChanges` keeps every view tracked: no view is in the container twice, none is
      both shown and cached, and none shown or cached is destroyed. */
  lemma {:induction false} ApplyAllKeepsTracked<T, R>(s: RepeaterState<T, R>, changes: seq<Change<R>>, cacheSize: int, cfg: Config<T, R>)
    requires Tracked(s.views, s.cache) && AllFit(s, changes, cacheSize, cfg)
    ensures var t := ApplyAll(s, changes, cacheSize, cfg); Tracked(t.views, t.cache)
    decreases |changes|
  {
    if changes != [] {
      ApplyAllKeepsTracked(s, changes[..|changes| - 1], cacheSize, cfg);
      ApplyChangeKeepsTracked(ApplyAll(s, changes[..|changes| - 1], cacheSize, cfg), changes[|changes| - 1], cacheSize, cfg);
    }
  }

  /** The cache never grows past `templateCacheSize`. */
  lemma {:induction false} ApplyAllBoundsCache<T, R>(s: RepeaterState<T, R>, changes: seq<Change<R>>, cacheSize: int, cfg: Config<T, R>)
    requires AllFit(s, changes, cacheSize, cfg) && |s.cache| <= cacheSize
    ensures |ApplyAll(s, changes, cacheSize, cfg).cache| <= cacheSize
    decreases |changes|
  {
    if changes != [] {
      ApplyAllBoundsCache(s, changes[..|changes| - 1], cacheSize, cfg);
    }
  }

  /** The container grows by one per added item and shrinks by one per removed item. */
  lemma {:induction false} ApplyAllLength<T, R>(s: RepeaterState<T, R>, changes: seq<Change<R>>, cacheSize: int, cfg: Config<T, R>)
    requires Tracked(s.views, s.cache) && AllFit(s, changes, cacheSize, cfg)
    ensures |ApplyAll(s, changes, cacheSize, cfg).views.attached| == |s.views.attached| + NetInserted(changes)
    decreases |changes|
  {
    if changes != [] {
      var prev := changes[..|changes| - 1];
      ApplyAllLength(s, prev, cacheSize, cfg);
      ApplyAllKeepsTracked(s, prev, cacheSize, cfg);
      var m := ApplyAll(s, prev, cacheSize, cfg);
      match changes[|changes| - 1]
      case Remove(_, p) =>
        DetachedViewIsGone(m.views, m.cache, p);
      case Insert(_, _) =>
      case Move(_, _, _) =>
    }
  }

  /** With a callback, one event per change, in order, naming the change's operation and
      record, and a view context for every change except a removal; without one, none. */
  lemma {:induction false} ApplyAllNotifiesEachChange<T, R>(s: RepeaterState<T, R>, changes: seq<Change<R>>, cacheSize: int, cfg: Config<T, R>)
    requires AllFit(s, changes, cacheSize, cfg)
    ensures !cfg.notify ==> ApplyAll(s, changes, cacheSize, cfg).log == s.log
    ensures cfg.notify ==> ReportsEach(s.log, ApplyAll(s, changes, cacheSize, cfg).log, changes)
    decreases |changes|
  {
    if changes != [] {
      var prev := changes[..|changes| - 1];
      var c := changes[|changes| - 1];
      ApplyAllNotifiesEachChange(s, prev, cacheSize, cfg);
      var m := ApplyAll(s, prev, cacheSize, cfg);
      ApplyChangeNotifies(m, c, cacheSize, cfg);
      if cfg.notify {
        var log := ApplyAll(s, changes, cacheSize, cfg).log;
        ReportsEachExtend(s.log, m.log, prev, log[|log| - 1], c);
        assert log == m.log + [log[|log| - 1]];
        assert prev + [c] == changes;
      }
    }
  }

  /** One change sends one event naming its operation and record when there is a callback. */
  lemma ApplyChangeNotifies<T, R>(s: RepeaterState<T, R>, c: Change<R>, cacheSize: int, cfg: Config<T, R>)
    requires Fits(s, c, cfg)
    ensures var log := ApplyChange(s, c, cacheSize, cfg).log;
      (!cfg.notify ==> log == s.log) &&
      (cfg.notify ==> (|log| == |s.log| + 1 && log[..|s.log|] == s.log && Reports(log[|s.log|], c)))
  {
  }

  /** An added item gets the newest cached view when there is one, and a new view (the only
      way views are created) only when the cache is empty; either way its `$implicit` is the
      resolved value. */
  lemma InsertReusesNewestCachedView<T, R>(s: RepeaterState<T, R>, record: R, currentIndex: nat, cacheSize: int, cfg: Config<T, R>)
    requires Fits(s, Insert(record, currentIndex), cfg)
    ensures var t := ApplyChange(s, Insert(record, currentIndex), cacheSize, cfg);
      var v := t.views.attached[if |s.cache| > 0 then currentIndex else
                                  var a := cfg.contextFactory(record, currentIndex);
                                  if a.index.Some? then a.index.value else |s.views.attached|];
      t.views.implicit[v] == Some(cfg.valueResolver(record)) &&
      (|s.cache| > 0 ==> v == s.cache[|s.cache| - 1] && t.cache == s.cache[..|s.cache| - 1] && t.views.nextId == s.views.nextId) &&
      (|s.cache| == 0 ==> v == s.views.nextId && t.views.nextId == s.views.nextId + 1)
  {
  }

  /** A moved item keeps its view, now at `currentIndex`, with the resolved value; the views
      in the container and the cache stay the same. */
  lemma MoveKeepsViews<T, R>(s: RepeaterState<T, R>, record: R, p: nat, currentIndex: nat, cacheSize: int, cfg: Config<T, R>)
    requires Fits(s, Move(record, p, currentIndex), cfg)
    ensures var t := ApplyChange(s, Move(record, p, currentIndex), cacheSize, cfg);
      multiset(t.views.attached) == multiset(s.views.attached) &&
      t.views.attached[currentIndex] == s.views.attached[p] &&
      t.views.implicit[s.views.attached[p]] == Some(cfg.valueResolver(record)) &&
      t.cache == s.cache && t.views.nextId == s.views.nextId && t.views.destroyed == s.views.destroyed
  {
    ContainerMoveKeepsViews(s.views.attached, s.views.attached[p], currentIndex);
  }

  /** `detach` destroys the cached views but keeps them in the cache: with any view cached,
      the views are no longer tracked, and the next added item would get a destroyed view. */
  lemma DetachLeavesDestroyedViewsCached<T>(views: Views<T>, cache: seq<ViewId>)
    requires |cache| > 0
    ensures !Tracked(views.(destroyed := views.destroyed + set v | v in cache), cache)
    ensures ViewInserted(cache, views.(destroyed := views.destroyed + set v | v in cache), 0, InsertArgs(None, None)).2
            in views.destroyed + set v | v in cache
  {
    var after := views.(destroyed := views.destroyed + set v | v in cache);
    var v := cache[0];
    assert v in multiset(after.attached + cache) by {
      assert (after.attached + cache)[|after.attached|] == v;
    }
    assert v in after.destroyed;
  }

  class RecycleViewRepeaterStrategy<T, R> {
    /** How many detached views are kept for reuse; 0 turns caching off. */
    var templateCacheSize: int
    var templateCache: seq<ViewId>

    constructor ()
      ensures templateCacheSize == 50 && templateCache == []
    {
      templateCacheSize := 50;
      templateCache := [];
    }

    /** `applyChanges`: returns the `onViewChanged` calls made, in order. */
    method ApplyChanges(changes: seq<Change<R>>, container: ViewContainer<T>, cfg: Config<T, R>)
        returns (log: seq<ViewChange<R>>)
      requires AllFit(RepeaterState(templateCache, container.Value(), []), changes, templateCacheSize, cfg)
      modifies this`templateCache, container
      ensures var t := ApplyAll(RepeaterState(old(templateCache), old(container.Value()), []), changes, templateCacheSize, cfg);
        templateCache == t.cache && container.Value() == t.views && log == t.log
    {
      ghost var s0 := RepeaterState(templateCache, container.Value(), []);
      log := [];
      for i := 0 to |changes|
        invariant AllFit(s0, changes[..i], templateCacheSize, cfg)
        invariant RepeaterState(templateCache, container.Value(), log) == ApplyAll(s0, changes[..i], templateCacheSize, cfg)
      {
        AllFitPrefix(s0, changes, i + 1, templateCacheSize, cfg);
        ApplyAllStep(s0, changes, i, templateCacheSize, cfg);
        log := ApplyOne(changes[i], container, cfg, log);
      }
      assert changes[..|changes|] == changes;
    }

    /** One operation of `applyChanges`: insert, remove or move the view, then report it. */
    method ApplyOne(c: Change<R>, container: ViewContainer<T>, cfg: Config<T, R>, log: seq<ViewChange<R>>)
        returns (log': seq<ViewChange<R>>)
      requires Fits(RepeaterState(templateCache, container.Value(), log), c, cfg)
      modifies this`templateCache, container
      ensures RepeaterState(templateCache, container.Value(), log') ==
        ApplyChange(RepeaterState(old(templateCache), old(container.Value()), log), c, templateCacheSize, cfg)
    {
      log' := log;
      match c
      case Insert(record, currentIndex) =>
        var v := InsertView(cfg.contextFactory(record, currentIndex), currentIndex, container);
        container.SetImplicit(v, cfg.valueResolver(record));
        if cfg.notify { log' := log + [ViewChange(Inserted, record, Some(v))]; }
      case Remove(record, p) =>
        DetachAndCacheView(p, container);
        if cfg.notify { log' := log + [ViewChange(Removed, record, None)]; }
      case Move(record, p, currentIndex) =>
        var v := MoveView(p, currentIndex, container);
        container.SetImplicit(v, cfg.valueResolver(record));
        if cfg.notify { log' := log + [ViewChange(Moved, record, Some(v))]; }
    }

    /** `detach`: destroy every cached view. */
    method Detach(container: ViewContainer<T>)
      modifies container`destroyed
      ensures container.destroyed == old(container.destroyed) + set v | v in templateCache
    {
      for i := 0 to |templateCache|
        invariant container.destroyed == old(container.destroyed) + set v | v in templateCache[..i]
      {
        container.DestroyView(templateCache[i]);
        assert templateCache[..i + 1] == templateCache[..i] + [templateCache[i]];
      }
      assert templateCache[..|templateCache|] == templateCache;
    }

    /** `_insertView`. */
    method InsertView(args: InsertArgs<T>, currentIndex: nat, container: ViewContainer<T>) returns (v: ViewId)
      requires InsertFits(templateCache, container.Value(), currentIndex, args)
      modifies this`templateCache, container
      ensures (templateCache, container.Value(), v) == ViewInserted(old(templateCache), old(container.Value()), currentIndex, args)
    {
      if |templateCache| > 0 {
        v := templateCache[|templateCache| - 1];
        templateCache := templateCache[..|templateCache| - 1];
        container.Insert(v, currentIndex);
      } else {
        v := container.CreateEmbeddedView(args.context, args.index);
      }
    }

    /** `_detachAndCacheView`. */
    method DetachAndCacheView(index: nat, container: ViewContainer<T>)
      requires index < |container.attached|
      modifies this`templateCache, container
      ensures (templateCache, container.Value()) == ViewDetachedAndCached(old(templateCache), old(container.Value()), index, templateCacheSize)
    {
      var v := container.Detach(index);
      MaybeCacheView(v, container);
    }

    /** `_moveView`. */
    method MoveView(adjustedPreviousIndex: nat, currentIndex: nat, container: ViewContainer<T>) returns (v: ViewId)
      requires adjustedPreviousIndex < |container.attached| && currentIndex < |container.attached|
      modifies container
      ensures (container.Value(), v) == ViewMoved(old(container.Value()), adjustedPreviousIndex, currentIndex)
    {
      var view := container.Get(adjustedPreviousIndex);
      v := view.value;
      container.Move(v, currentIndex);
    }

    /** `_maybeCacheView`. */
    method MaybeCacheView(v: ViewId, container: ViewContainer<T>)
      modifies this`templateCache, container
      ensures (templateCache, container.Value()) == ViewMaybeCached(old(templateCache), old(container.Value()), v, templateCacheSize)
    {
      if |templateCache| < templateCacheSize {
        templateCache := templateCache + [v];
      } else {
        var index := container.IndexOf(v);
        if index == -1 {
          container.DestroyView(v);
        } else {
          container.Remove(index);
        }
      }
    }

    /** `_getCachedView`: pop the newest cached view, if any, and insert it at `index`. */
    method GetCachedView(index: nat, container: ViewContainer<T>) returns (v: Option<ViewId>)
      requires index <= |container.attached|
      modifies this`templateCache, container`attached
      ensures |old(templateCache)| == 0 ==> v == None && templateCache == old(templateCache) && container.attached == old(container.attached)
      ensures |old(templateCache)| > 0 ==>
        v == Some(old(templateCache)[|old(templateCache)| - 1]) &&
        templateCache == old(templateCache)[..|old(templateCache)| - 1] &&
        container.attached == InsertAt(old(container.attached), index, v.value)
    {
      if |templateCache| > 0 {
        var cached := templateCache[|templateCache| - 1];
        templateCache := templateCache[..|templateCache| - 1];
        container.Insert(cached, index);
        v := Some(cached);
      } else {
        v := None;
      }
    }
  }
}
