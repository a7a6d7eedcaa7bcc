/** `DisposeViewRepeaterStrategy`: every added item gets a new view, every removed item's view
    is destroyed through the container, and moved items keep their views. It never sets
    `$implicit` itself; the context factory's context is the view's context. */
module DisposeViewRepeater {
  import opened Wrappers
  import opened ViewContainers
  import opened ViewRepeater

  /** The container and the events sent so far. */
  datatype DisposeState<T, R> = DisposeState(views: Views<T>, log: seq<ViewChange<R>>)

  /** Whether the container has the indices `c` refers to. */
  predicate Fits<T, R>(s: DisposeState<T, R>, c: Change<R>, cfg: Config<T, R>)
  {
    match c
    case Insert(record, currentIndex) =>
      var args := cfg.contextFactory(record, currentIndex);
      args.index.Some? ==> args.index.value <= |s.views.attached|
    case Remove(_, p) => p < |s.views.attached|
    case Move(_, p, currentIndex) => p < |s.views.attached| && currentIndex < |s.views.attached|
  }

  /** One step of `applyChanges`. */
  function ApplyChange<T, R>(s: DisposeState<T, R>, c: Change<R>, cfg: Config<T, R>): DisposeState<T, R>
    requires Fits(s, c, cfg)
  {
    match c
    case Insert(record, currentIndex) =>
      var args := cfg.contextFactory(record, currentIndex);
      DisposeState(WithEmbeddedView(s.views, args.context, args.index),
                   Notify(s.log, cfg.notify, ViewChange(Inserted, record, Some(s.views.nextId))))
    case Remove(record, p) =>
      DisposeState(s.views.(attached := RemoveAt(s.views.attached, p), destroyed := s.views.destroyed + {s.views.attached[p]}),
                   Notify(s.log, cfg.notify, ViewChange(Removed, record, None)))
    case Move(record, p, currentIndex) =>
      var v := s.views.attached[p];
      DisposeState(s.views.(attached := ContainerMove(s.views.attached, v, currentIndex)),
                   Notify(s.log, cfg.notify, ViewChange(Moved, record, Some(v))))
  }

  /** Whether every change fits the state the ones before it leave. */
  ghost predicate AllFit<T, R>(s: DisposeState<T, R>, changes: seq<Change<R>>, cfg: Config<T, R>)
    decreases |changes|, 0
  {
    changes == [] ||
    (AllFit(s, changes[..|changes| - 1], cfg) &&
     Fits(ApplyAll(s, changes[..|changes| - 1], cfg), changes[|changes| - 1], cfg))
  }

  /** `applyChanges`: the changes applied one after the other. */
  function ApplyAll<T, R>(s: DisposeState<T, R>, changes: seq<Change<R>>, cfg: Config<T, R>): DisposeState<T, R>
    requires AllFit(s, changes, cfg)
    decreases |changes|, 1
  {
    if changes == [] then s
    else ApplyChange(ApplyAll(s, changes[..|changes| - 1], cfg), changes[|changes| - 1], cfg)
  }

  lemma {:induction false} AllFitPrefix<T, R>(s: DisposeState<T, R>, changes: seq<Change<R>>, i: nat, cfg: Config<T, R>)
    requires AllFit(s, changes, cfg) && i <= |changes|
    ensures AllFit(s, changes[..i], cfg)
    decreases |changes|
  {
    if i < |changes| {
      assert changes[..|changes| - 1][..i] == changes[..i];
      AllFitPrefix(s, changes[..|changes| - 1], i, cfg);
    } else {
      assert changes[..i] == changes;
    }
  }

  /** How many items `changes` adds. */
  function Added<R>(changes: seq<Change<R>>): nat
  {
    if changes == [] then 0
    else Added(changes[..|changes| - 1]) + if changes[|changes| - 1].Insert? then 1 else 0
  }

  /** One change keeps the container's views tracked (there is no cache). */
  lemma ApplyChangeKeepsTracked<T, R>(s: DisposeState<T, R>, c: Change<R>, cfg: Config<T, R>)
    requires Tracked(s.views, []) && Fits(s, c, cfg)
    ensures Tracked(ApplyChange(s, c, cfg).views, [])
  {
    var t := ApplyChange(s, c, cfg);
    assert s.views.attached + [] == s.views.attached;
    assert t.views.attached + [] == t.views.attached;
    match c
    case Insert(record, currentIndex) =>
      TrackedAfterCreate(s.views, [], t.views, []);
    case Remove(record, p) =>
      RemoveAtMultiset(s.views.attached, p);
      TrackedAfterDestroy(s.views, [], t.views, [], s.views.attached[p]);
    case Move(record, p, currentIndex) =>
      ContainerMoveKeepsViews(s.views.attached, s.views.attached[p], currentIndex);
      TrackedSameLive(s.views, [], t.views, []);
  }

  /** `applyChanges` keeps the views tracked, creates exactly one view per added item (none
      is ever reused), and changes the container's length by the items added minus the items
      removed. */
  lemma {:induction false} ApplyAllCreatesOnePerInsert<T, R>(s: DisposeState<T, R>, changes: seq<Change<R>>, cfg: Config<T, R>)
    requires Tracked(s.views, []) && AllFit(s, changes, cfg)
    ensures var t := ApplyAll(s, changes, cfg);
      Tracked(t.views, []) &&
      t.views.nextId == s.views.nextId + Added(changes) &&
      |t.views.attached| == |s.views.attached| + NetInserted(changes) &&
      s.views.destroyed <= t.views.destroyed
    decreases |changes|
  {
    if changes != [] {
      var prev := changes[..|changes| - 1];
      ApplyAllCreatesOnePerInsert(s, prev, cfg);
      ApplyChangeKeepsTracked(ApplyAll(s, prev, cfg), changes[|changes| - 1], cfg);
    }
  }

  /** A removal destroys exactly the removed view; an insertion puts the new view where the
      factory says, with the factory's context; a move keeps the views. */
  lemma ApplyChangeEffects<T, R>(s: DisposeState<T, R>, c: Change<R>, cfg: Config<T, R>)
    requires Tracked(s.views, []) && Fits(s, c, cfg)
    ensures var t := ApplyChange(s, c, cfg);
      (c.Remove? ==> t.views.destroyed == s.views.destroyed + {s.views.attached[c.adjustedPreviousIndex]} &&
                     s.views.attached[c.adjustedPreviousIndex] !in t.views.attached) &&
      (c.Insert? ==> var args := cfg.contextFactory(c.record, c.currentIndex);
                     var at := if args.index.Some? then args.index.value else |s.views.attached|;
                     t.views.attached[at] == s.views.nextId && s.views.nextId !in s.views.attached &&
                     t.views.implicit[s.views.nextId] == args.context) &&
      (c.Move? ==> multiset(t.views.attached) == multiset(s.views.attached) &&
                   t.views.attached[c.currentIndex] == s.views.attached[c.adjustedPreviousIndex])
  {
    var live := multiset(s.views.attached);
    assert s.views.attached + [] == s.views.attached;
    match c
    case Insert(record, currentIndex) =>
      assert s.views.nextId !in live;
    case Remove(record, p) =>
      var v := s.views.attached[p];
      RemoveAtMultiset(s.views.attached, p);
      assert live[v] == 1;
      assert multiset(RemoveAt(s.views.attached, p))[v] == 0;
    case Move(record, p, currentIndex) =>
      ContainerMoveKeepsViews(s.views.attached, s.views.attached[p], currentIndex);
  }

  /** With a callback, one event per change, in order, naming the change's operation and
      record, and a view context for every change except a removal; without one, none. */
  lemma {:induction false} ApplyAllNotifiesEachChange<T, R>(s: DisposeState<T, R>, changes: seq<Change<R>>, cfg: Config<T, R>)
    requires AllFit(s, changes, cfg)
    ensures !cfg.notify ==> ApplyAll(s, changes, cfg).log == s.log
    ensures cfg.notify ==> ReportsEach(s.log, ApplyAll(s, changes, cfg).log, changes)
    decreases |changes|
  {
    if changes != [] {
      var prev := changes[..|changes| - 1];
      var c := changes[|changes| - 1];
      ApplyAllNotifiesEachChange(s, prev, cfg);
      var m := ApplyAll(s, prev, cfg);
      ApplyChangeNotifies(m, c, cfg);
      if cfg.notify {
        var log := ApplyAll(s, changes, cfg).log;
        ReportsEachExtend(s.log, m.log, prev, log[|log| - 1], c);
        assert log == m.log + [log[|log| - 1]];
        assert prev + [c] == changes;
      }
    }
  }

  /** One change sends one event naming its operation and record when there is a callback. */
  lemma ApplyChangeNotifies<T, R>(s: DisposeState<T, R>, c: Change<R>, cfg: Config<T, R>)
    requires Fits(s, c, cfg)
    ensures var log := ApplyChange(s, c, cfg).log;
      (!cfg.notify ==> log == s.log) &&
      (cfg.notify ==> (|log| == |s.log| + 1 && log[..|s.log|] == s.log && Reports(log[|s.log|], c)))
  {
  }

  class DisposeViewRepeaterStrategy<T, R> {
    /** `applyChanges`: returns the `itemViewChanged` calls made, in order. */
    method ApplyChanges(changes: seq<Change<R>>, container: ViewContainer<T>, cfg: Config<T, R>)
        returns (log: seq<ViewChange<R>>)
      requires AllFit(DisposeState(container.Value(), []), changes, cfg)
      modifies container
      ensures DisposeState(container.Value(), log) == ApplyAll(DisposeState(old(container.Value()), []), changes, cfg)
    {
      ghost var s0 := DisposeState(container.Value(), []);
      log := [];
      for i := 0 to |changes|
        invariant AllFit(s0, changes[..i], cfg)
        invariant DisposeState(container.Value(), log) == ApplyAll(s0, changes[..i], cfg)
      {
        AllFitPrefix(s0, changes, i + 1, cfg);
        assert changes[..i + 1][..i] == changes[..i];
        match changes[i]
        case Insert(record, currentIndex) =>
          var args := cfg.contextFactory(record, currentIndex);
          var v := container.CreateEmbeddedView(args.context, args.index);
          if cfg.notify { log := log + [ViewChange(Inserted, record, Some(v))]; }
        case Remove(record, p) =>
          container.Remove(p);
          if cfg.notify { log := log + [ViewChange(Removed, record, None)]; }
        case Move(record, p, currentIndex) =>
          var view := container.Get(p);
          container.Move(view.value, currentIndex);
          if cfg.notify { log := log + [ViewChange(Moved, record, Some(view.value))]; }
      }
      assert changes[..|changes|] == changes;
    }
  }
}
