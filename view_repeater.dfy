/** The shapes shared by the view repeaters: the operations an iterable differ reports,
    the notification a repeater sends for each of them, and what a context factory returns. */
module ViewRepeater {
  import opened Wrappers
  import opened ViewContainers

  /** One step of `forEachOperation`: an added item (no previous index), a removed item (no
      current index), or an item that moved. Indices are those of the container at that
      step, as the differ adjusts them. */
  datatype Change<R> =
    | Insert(record: R, currentIndex: nat)
    | Remove(record: R, adjustedPreviousIndex: nat)
    | Move(record: R, adjustedPreviousIndex: nat, currentIndex: nat)

  /** `ViewRepeaterOperation`. */
  datatype Operation = Inserted | Moved | Removed

  /** The arguments of one `onViewChanged` call; `context` names the view whose context is
      passed, and is absent for a removal. */
  datatype ViewChange<R> = ViewChange(operation: Operation, record: R, context: Option<ViewId>)

  /** `ViewRepeaterItemInsertArgs`: the context to create the view with and where to put it. */
  datatype InsertArgs<T> = InsertArgs(context: Option<T>, index: Option<nat>)

  /** The callbacks of one `applyChanges` call. The context factory is called with the record
      and the current index (the adjusted previous index of an added item is null); `notify`
      says whether an `onViewChanged` callback was passed. */
  datatype Config<T, !R> = Config(contextFactory: (R, nat) -> InsertArgs<T>, valueResolver: R -> T, notify: bool)

  /** The operation an event for `c` reports. */
  function OperationOf<R>(c: Change<R>): Operation
  {
    match c
    case Insert(_, _) => Inserted
    case Remove(_, _) => Removed
    case Move(_, _, _) => Moved
  }

  /** The change log after one `onViewChanged` call, if there is a callback. */
  function Notify<R>(log: seq<ViewChange<R>>, notify: bool, e: ViewChange<R>): (r: seq<ViewChange<R>>)
    ensures notify ==> r == log + [e]
    ensures !notify ==> r == log
  {
    if notify then log + [e] else log
  }

  /** How many items `changes` adds minus how many it removes. */
  function NetInserted<R>(changes: seq<Change<R>>): int
  {
    if changes == [] then 0
    else
      NetInserted(changes[..|changes| - 1]) +
      match changes[|changes| - 1]
      case Insert(_, _) => 1
      case Remove(_, _) => -1
      case Move(_, _, _) => 0
  }

  /** `log` is `before` followed by one event per change, each naming the change's operation
      and record, with a view context exactly when the change is not a removal. */
  ghost predicate ReportsEach<R>(before: seq<ViewChange<R>>, log: seq<ViewChange<R>>, changes: seq<Change<R>>)
  {
    |log| == |before| + |changes| && log[..|before|] == before &&
    forall k :: 0 <= k < |changes| ==> Reports(log[|before| + k], changes[k])
  }

  ghost predicate Reports<R>(e: ViewChange<R>, c: Change<R>)
  {
    e.operation == OperationOf(c) && e.record == c.record && (e.context.None? <==> c.Remove?)
  }

  lemma ReportsEachExtend<R>(before: seq<ViewChange<R>>, log: seq<ViewChange<R>>, changes: seq<Change<R>>, e: ViewChange<R>, c: Change<R>)
    requires ReportsEach(before, log, changes) && Reports(e, c)
    ensures ReportsEach(before, log + [e], changes + [c])
  {
    var log' := log + [e];
    var changes' := changes + [c];
    assert log'[..|before|] == log[..|before|];
    forall k | 0 <= k < |changes'|
      ensures Reports(log'[|before| + k], changes'[k])
    {
      if k < |changes| {
        assert log'[|before| + k] == log[|before| + k];
      }
    }
  }
}
