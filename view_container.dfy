/** The view container the repeaters work on (Angular's `ViewContainerRef`, whose code is
    not part of this model): an ordered sequence of view ids, the `$implicit` value of each
    view's context, the set of destroyed views, and the id the next created view gets. */
module ViewContainers {
  import opened Wrappers

  type ViewId = nat

  /** `s` with `x` inserted so that it lands at index `i`. */
  function InsertAt<X>(s: seq<X>, i: nat, x: X): (r: seq<X>)
    requires i <= |s|
    ensures |r| == |s| + 1 && r[i] == x
    ensures forall k :: 0 <= k < i ==> r[k] == s[k]
    ensures forall k :: i < k < |r| ==> r[k] == s[k - 1]
  {
    s[..i] + [x] + s[i..]
  }

  /** `s` without its element at index `i`. */
  function RemoveAt<X>(s: seq<X>, i: nat): (r: seq<X>)
    requires i < |s|
    ensures |r| == |s| - 1
    ensures forall k :: 0 <= k < i ==> r[k] == s[k]
    ensures forall k :: i <= k < |r| ==> r[k] == s[k + 1]
  {
    s[..i] + s[i + 1..]
  }

  /** `indexOf`: the first index of `x` in `s`, or -1. */
  function FirstIndex<X(==)>(s: seq<X>, x: X): (r: int)
    ensures r == -1 <==> x !in s
    ensures r != -1 ==> 0 <= r < |s| && s[r] == x && x !in s[..r]
  {
    if s == [] then -1
    else if s[0] == x then 0
    else
      var k := FirstIndex(s[1..], x);
      if k == -1 then -1
      else
        assert s[..k + 1] == [s[0]] + s[1..][..k];
        k + 1
  }

  lemma InsertAtMultiset<X>(s: seq<X>, i: nat, x: X)
    requires i <= |s|
    ensures multiset(InsertAt(s, i, x)) == multiset(s) + multiset{x}
  {
    assert s == s[..i] + s[i..];
  }

  lemma RemoveAtMultiset<X>(s: seq<X>, i: nat)
    requires i < |s|
    ensures multiset(RemoveAt(s, i)) == multiset(s) - multiset{s[i]}
  {
    assert s == s[..i] + [s[i]] + s[i + 1..];
  }

  /** `move(view, to)`: a view already in the container is taken out first, so `to` is an
      index of the shortened sequence; a view not in it is simply inserted. */
  function ContainerMove(s: seq<ViewId>, v: ViewId, to: nat): seq<ViewId>
    requires if v in s then to < |s| else to <= |s|
  {
    var i := FirstIndex(s, v);
    if i == -1 then InsertAt(s, to, v) else InsertAt(RemoveAt(s, i), to, v)
  }

  /** Moving a view that is in the container keeps the same views, puts it at `to`, and
      creates nothing. */
  lemma ContainerMoveKeepsViews(s: seq<ViewId>, v: ViewId, to: nat)
    requires v in s && to < |s|
    ensures multiset(ContainerMove(s, v, to)) == multiset(s)
    ensures |ContainerMove(s, v, to)| == |s| && ContainerMove(s, v, to)[to] == v
  {
    var i := FirstIndex(s, v);
    RemoveAtMultiset(s, i);
    InsertAtMultiset(RemoveAt(s, i), to, v);
  }

  /** The value of a container together with the views it made. */
  datatype Views<T> = Views(attached: seq<ViewId>, implicit: map<ViewId, Option<T>>, destroyed: set<ViewId>, nextId: nat)

  /** `createEmbeddedView(template, context, index)` on a container value: a view with the
      next id and the given `$implicit`, inserted at `index`, or appended when there is none. */
  function WithEmbeddedView<T>(views: Views<T>, context: Option<T>, index: Option<nat>): (r: Views<T>)
    requires index.Some? ==> index.value <= |views.attached|
    ensures r.nextId == views.nextId + 1 && r.destroyed == views.destroyed && |r.attached| == |views.attached| + 1
    ensures multiset(r.attached) == multiset(views.attached) + multiset{views.nextId}
    ensures r.attached[if index.Some? then index.value else |views.attached|] == views.nextId
    ensures r.implicit == views.implicit[views.nextId := context]
  {
    var at := if index.Some? then index.value else |views.attached|;
    InsertAtMultiset(views.attached, at, views.nextId);
    views.(attached := InsertAt(views.attached, at, views.nextId),
           implicit := views.implicit[views.nextId := context],
           nextId := views.nextId + 1)
  }

  /** Every view in the container or in `cache` is there once, was created, and is not
      destroyed; every destroyed view was created. */
  ghost predicate Tracked<T>(views: Views<T>, cache: seq<ViewId>)
  {
    var live := multiset(views.attached + cache);
    (forall x :: x in live ==> live[x] == 1 && x < views.nextId && x !in views.destroyed) &&
    (forall x :: x in views.destroyed ==> x < views.nextId)
  }

  /** Tracking depends only on the multiset of live views, the destroyed set and the next id. */
  lemma TrackedSameLive<T>(views: Views<T>, cache: seq<ViewId>, views': Views<T>, cache': seq<ViewId>)
    requires Tracked(views, cache)
    requires multiset(views'.attached + cache') == multiset(views.attached + cache)
    requires views'.destroyed == views.destroyed && views'.nextId == views.nextId
    ensures Tracked(views', cache')
  {
  }

  lemma TrackedAfterCreate<T>(views: Views<T>, cache: seq<ViewId>, views': Views<T>, cache': seq<ViewId>)
    requires Tracked(views, cache)
    requires multiset(views'.attached + cache') == multiset(views.attached + cache) + multiset{views.nextId}
    requires views'.destroyed == views.destroyed && views'.nextId == views.nextId + 1
    ensures Tracked(views', cache')
  {
    var live := multiset(views.attached + cache);
    assert views.nextId !in live;
  }

  lemma TrackedAfterDestroy<T>(views: Views<T>, cache: seq<ViewId>, views': Views<T>, cache': seq<ViewId>, v: ViewId)
    requires Tracked(views, cache) && v in multiset(views.attached + cache)
    requires multiset(views'.attached + cache') == multiset(views.attached + cache) - multiset{v}
    requires views'.destroyed == views.destroyed + {v} && views'.nextId == views.nextId
    ensures Tracked(views', cache')
  {
    var live := multiset(views.attached + cache);
    assert live[v] == 1;
  }

  /** `ViewContainerRef`, reduced to what the repeaters use. */
  class ViewContainer<T> {
    var attached: seq<ViewId>
    var implicit: map<ViewId, Option<T>>
    var destroyed: set<ViewId>
    var nextId: nat

    function Value(): Views<T>
      reads this
    {
      Views(attached, implicit, destroyed, nextId)
    }

    constructor ()
      ensures Value() == Views([], map[], {}, 0)
    {
      attached := [];
      implicit := map[];
      destroyed := {};
      nextId := 0;
    }

    /** `get(index)`: the view at `index`, or null outside the container. */
    method Get(index: int) returns (v: Option<ViewId>)
      ensures 0 <= index < |attached| ==> v == Some(attached[index])
      ensures !(0 <= index < |attached|) ==> v == None
    {
      v := if 0 <= index < |attached| then Some(attached[index]) else None;
    }

    /** `indexOf(view)`. */
    method IndexOf(v: ViewId) returns (r: int)
      ensures r == FirstIndex(attached, v)
    {
      r := FirstIndex(attached, v);
    }

    /** `insert(view, index)` of a view that is not in the container. */
    method Insert(v: ViewId, index: nat)
      requires index <= |attached|
      modifies this`attached
      ensures attached == InsertAt(old(attached), index, v)
    {
      attached := InsertAt(attached, index, v);
    }

    /** `detach(index)`: take the view out without destroying it. */
    method Detach(index: nat) returns (v: ViewId)
      requires index < |attached|
      modifies this`attached
      ensures v == old(attached)[index] && attached == RemoveAt(old(attached), index)
    {
      v := attached[index];
      attached := RemoveAt(attached, index);
    }

    /** `remove(index)`: take the view out and destroy it. */
    method Remove(index: nat)
      requires index < |attached|
      modifies this`attached, this`destroyed
      ensures attached == RemoveAt(old(attached), index)
      ensures destroyed == old(destroyed) + {old(attached)[index]}
    {
      destroyed := destroyed + {attached[index]};
      attached := RemoveAt(attached, index);
    }

    /** `move(view, to)`. */
    method Move(v: ViewId, to: nat)
      requires if v in attached then to < |attached| else to <= |attached|
      modifies this`attached
      ensures attached == ContainerMove(old(attached), v, to)
    {
      attached := ContainerMove(attached, v, to);
    }

    /** `createEmbeddedView(template, context, index)`: a new view with the given `$implicit`,
        inserted at `index`, or appended when no index is given. */
    method CreateEmbeddedView(context: Option<T>, index: Option<nat>) returns (v: ViewId)
      requires index.Some? ==> index.value <= |attached|
      modifies this
      ensures v == old(nextId) && Value() == WithEmbeddedView(old(Value()), context, index)
    {
      v := nextId;
      nextId := nextId + 1;
      attached := InsertAt(attached, if index.Some? then index.value else |attached|, v);
      implicit := implicit[v := context];
    }

    /** `view.destroy()` on a view the container does not hold. */
    method DestroyView(v: ViewId)
      modifies this`destroyed
      ensures destroyed == old(destroyed) + {v}
    {
      destroyed := destroyed + {v};
    }

    /** `view.context.$implicit = x`. */
    method SetImplicit(v: ViewId, x: T)
      modifies this`implicit
      ensures implicit == old(implicit)[v := Some(x)]
    {
      implicit := implicit[v := Some(x)];
    }
  }
}
