/** `RecycleRendererStrategy` of the list renderer: the recycling repeater's rules with a
    cache of 20, an item factory that creates the view at the index it is given, and the
    record's own item as each view's `$implicit`; after the operations it refreshes the
    views whose items changed identity and calls `onContextChanged` once. */
module ListRenderer {
  import opened Wrappers
  import opened ViewContainers
  import opened ViewRepeater
  import opened RecycleViewRepeater

  /** What the list renderer's callbacks amount to: the item factory creates a view at the
      index it is given, the record's item becomes `$implicit`, and no per-item event is sent. */
  function RendererConfig<T>(): Config<T, T>
  {
    Config((item: T, index: nat) => InsertArgs(None, Some(index)), (item: T) => item, false)
  }

  /** A record of `forEachIdentityChange`: the item now at `currentIndex`. */
  datatype IdentityChange<T> = IdentityChange(currentIndex: nat, item: T)

  /** The identity pass: each listed view's `$implicit` becomes the record's item. */
  function ApplyIdentityChanges<T>(views: Views<T>, ids: seq<IdentityChange<T>>): (r: Views<T>)
    requires forall k :: 0 <= k < |ids| ==> ids[k].currentIndex < |views.attached|
    ensures r.attached == views.attached && r.destroyed == views.destroyed && r.nextId == views.nextId
  {
    if ids == [] then views
    else
      var last := ids[|ids| - 1];
      SetImplicit(ApplyIdentityChanges(views, ids[..|ids| - 1]), views.attached[last.currentIndex], last.item)
  }

  /** With views that are tracked (so the container holds no view twice) and an identity
      change per index at most once, every listed view ends with its record's item, and
      every other view keeps its value. */
  lemma {:induction false} IdentityChangesSetItems<T>(views: Views<T>, ids: seq<IdentityChange<T>>, cache: seq<ViewId>)
    requires Tracked(views, cache)
    requires forall k :: 0 <= k < |ids| ==> ids[k].currentIndex < |views.attached|
    requires forall j, k :: 0 <= j < k < |ids| ==> ids[j].currentIndex != ids[k].currentIndex
    ensures var r := ApplyIdentityChanges(views, ids);
      (forall k :: 0 <= k < |ids| ==>
        views.attached[ids[k].currentIndex] in r.implicit && r.implicit[views.attached[ids[k].currentIndex]] == Some(ids[k].item)) &&
      (forall v :: v in views.implicit && (forall k :: 0 <= k < |ids| ==> v != views.attached[ids[k].currentIndex]) ==>
        v in r.implicit && r.implicit[v] == views.implicit[v])
  {
    if ids != [] {
      var prev := ids[..|ids| - 1];
      var last := ids[|ids| - 1];
      IdentityChangesSetItems(views, prev, cache);
      var r := ApplyIdentityChanges(views, ids);
      forall k | 0 <= k < |prev|
        ensures views.attached[prev[k].currentIndex] != views.attached[last.currentIndex]
      {
        DistinctIndicesDistinctViews(views, cache, prev[k].currentIndex, last.currentIndex);
      }
    }
  }

  /** In a tracked container, different indices hold different views. */
  lemma DistinctIndicesDistinctViews<T>(views: Views<T>, cache: seq<ViewId>, i: nat, j: nat)
    requires Tracked(views, cache) && i < |views.attached| && j < |views.attached| && i != j
    ensures views.attached[i] != views.attached[j]
  {
    var live := multiset(views.attached + cache);
    assert live == multiset(views.attached) + multiset(cache);
    assert views.attached[i] in multiset(views.attached);
    assert live[views.attached[i]] == 1;
    if views.attached[i] == views.attached[j] {
      if i < j { TwiceInMultiset(views.attached, i, j); } else { TwiceInMultiset(views.attached, j, i); }
      assert false;
    }
  }

  /** An element at two indices counts at least twice. */
  lemma TwiceInMultiset<X>(s: seq<X>, i: nat, j: nat)
    requires i < j < |s| && s[i] == s[j]
    ensures multiset(s)[s[i]] >= 2
  {
    var a, b, c := s[..i], s[i + 1..j], s[j + 1..];
    assert s == a + [s[i]] + b + [s[j]] + c;
    assert multiset(s) == multiset(a) + multiset{s[i]} + multiset(b) + multiset{s[j]} + multiset(c);
  }

  class RecycleRendererStrategy<T> {
    /** How many detached views are kept for reuse; 0 turns caching off. */
    var templateCacheSize: int
    var templateCache: seq<ViewId>

    constructor ()
      ensures templateCacheSize == 20 && templateCache == []
    {
      templateCacheSize := 20;
      templateCache := [];
    }

    /** `applyChanges`: the operations, then the identity changes, then one call to
        `onContextChanged`, whose argument (the container then) is returned. */
    method ApplyChanges(changes: seq<Change<T>>, identityChanges: seq<IdentityChange<T>>, container: ViewContainer<T>)
        returns (contextChangedWith: Views<T>)
      requires AllFit(RepeaterState(templateCache, container.Value(), []), changes, templateCacheSize, RendererConfig())
      requires var t := ApplyAll(RepeaterState(templateCache, container.Value(), []), changes, templateCacheSize, RendererConfig());
        forall k :: 0 <= k < |identityChanges| ==> identityChanges[k].currentIndex < |t.views.attached|
      modifies this`templateCache, container
      ensures var t := ApplyAll(RepeaterState(old(templateCache), old(container.Value()), []), changes, templateCacheSize, RendererConfig());
        templateCache == t.cache && container.Value() == ApplyIdentityChanges(t.views, identityChanges)
      ensures contextChangedWith == container.Value()
    {
      ghost var s0 := RepeaterState(templateCache, container.Value(), []);
      for i := 0 to |changes|
        invariant AllFit(s0, changes[..i], templateCacheSize, RendererConfig())
        invariant RepeaterState(templateCache, container.Value(), []) == ApplyAll(s0, changes[..i], templateCacheSize, RendererConfig())
      {
        AllFitPrefix(s0, changes, i + 1, templateCacheSize, RendererConfig());
        ApplyAllStep(s0, changes, i, templateCacheSize, RendererConfig());
        ApplyOne(changes[i], container);
      }
      assert changes[..|changes|] == changes;
      ghost var afterOps := container.Value();
      ghost var cacheAfterOps := templateCache;
      for i := 0 to |identityChanges|
        invariant templateCache == cacheAfterOps
        invariant container.Value() == ApplyIdentityChanges(afterOps, identityChanges[..i])
      {
        assert identityChanges[..i + 1][..i] == identityChanges[..i];
        var view := container.Get(identityChanges[i].currentIndex);
        container.SetImplicit(view.value, identityChanges[i].item);
      }
      assert identityChanges[..|identityChanges|] == identityChanges;
      contextChangedWith := container.Value();
    }

    /** One operation of the `forEachOperation` callback. */
    method ApplyOne(c: Change<T>, container: ViewContainer<T>)
      requires Fits(RepeaterState(templateCache, container.Value(), []), c, RendererConfig())
      modifies this`templateCache, container
      ensures RepeaterState(templateCache, container.Value(), []) ==
        ApplyChange(RepeaterState(old(templateCache), old(container.Value()), []), c, templateCacheSize, RendererConfig())
    {
      match c
      case Insert(item, currentIndex) =>
        var v := InsertViewForNewItem(currentIndex, container);
        container.SetImplicit(v, item);
      case Remove(item, p) =>
        var v := DetachView(p, container);
        CacheView(v, container);
      case Move(item, p, currentIndex) =>
        var view := container.Get(p);
        container.Move(view.value, currentIndex);
        container.SetImplicit(view.value, item);
    }

    /** `_cacheView`: keep the view when the cache has room, otherwise destroy it. */
    method CacheView(v: ViewId, container: ViewContainer<T>)
      modifies this`templateCache, container
      ensures (templateCache, container.Value()) == ViewMaybeCached(old(templateCache), old(container.Value()), v, templateCacheSize)
    {
      if |templateCache| < templateCacheSize {
        templateCache := templateCache + [v];
      } else {
        var index := container.IndexOf(v);
        if index == -1 {
          container.DestroyView(v);
        } else {
          container.Remove(index);
        }
      }
    }

    /** `_insertViewForNewItem`: a cached view, or else one the item factory creates at
        `index`. */
    method InsertViewForNewItem(index: nat, container: ViewContainer<T>) returns (v: ViewId)
      requires index <= |container.attached|
      modifies this`templateCache, container
      ensures (templateCache, container.Value(), v) == ViewInserted(old(templateCache), old(container.Value()), index, InsertArgs(None, Some(index)))
    {
      var cached := InsertViewFromCache(index, container);
      if cached.Some? {
        v := cached.value;
      } else {
        v := container.CreateEmbeddedView(None, Some(index));
      }
    }

    /** `_insertViewFromCache`: pop the newest cached view, if any, and insert it at `index`. */
    method InsertViewFromCache(index: nat, container: ViewContainer<T>) returns (v: Option<ViewId>)
      requires index <= |container.attached|
      modifies this`templateCache, container`attached
      ensures |old(templateCache)| == 0 ==> v == None && templateCache == old(templateCache) && container.attached == old(container.attached)
      ensures |old(templateCache)| > 0 ==>
        v == Some(old(templateCache)[|old(templateCache)| - 1]) &&
        templateCache == old(templateCache)[..|old(templateCache)| - 1] &&
        container.attached == InsertAt(old(container.attached), index, v.value)
    {
      if |templateCache| > 0 {
        var cached := templateCache[|templateCache| - 1];
        templateCache := templateCache[..|templateCache| - 1];
        container.Insert(cached, index);
        v := Some(cached);
      } else {
        v := None;
      }
    }

    /** `_detachView`. */
    method DetachView(index: nat, container: ViewContainer<T>) returns (v: ViewId)
      requires index < |container.attached|
      modifies container`attached
      ensures v == old(container.attached)[index] && container.attached == RemoveAt(old(container.attached), index)
    {
      v := container.Detach(index);
    }
  }
}
