/** The index interval type shared by the viewport, the strategies and the tables, and the
    inputs a table accepts as its data source. */
module Collections {

  /** A `ListRange` as the source passes it around. Nothing in the source clamps a range or
      orders its start before its end, so neither does this type. */
  datatype ListRange = ListRange(start: int, end: int)

  /** A table's `dataSource` input, each object case standing for the object it is (`id`):
      a `DataSource`, an observable of arrays, or an array with its items; or `null`, or
      `undefined`. */
  datatype DataSourceInput<T> =
    | DataSourceRef(id: nat)
    | ObservableRef(id: nat)
    | ArrayRef(id: nat, items: seq<T>)
    | Null
    | Undefined

  /** `a === b`: two objects are the same only when they are one object, whatever an
      array's items; `null` and `undefined` each equal only themselves. */
  function StrictEquals<T>(a: DataSourceInput<T>, b: DataSourceInput<T>): (r: bool)
    ensures a == b ==> r
    ensures r ==> a.Null? == b.Null? && a.Undefined? == b.Undefined?
    ensures r && !a.Null? && !a.Undefined? ==> a.id == b.id
    ensures a.ArrayRef? && b.ArrayRef? ==> (r <==> a.id == b.id)
  {
    match (a, b)
    case (DataSourceRef(x), DataSourceRef(y)) => x == y
    case (ObservableRef(x), ObservableRef(y)) => x == y
    case (ArrayRef(x, _), ArrayRef(y, _)) => x == y
    case (Null, Null) => true
    case (Undefined, Undefined) => true
    case _ => false
  }

  /** `===` on inputs is symmetric and transitive. */
  lemma StrictEqualsIsEquivalence<T>(a: DataSourceInput<T>, b: DataSourceInput<T>, c: DataSourceInput<T>)
    ensures StrictEquals(a, b) ==> StrictEquals(b, a)
    ensures StrictEquals(a, b) && StrictEquals(b, c) ==> StrictEquals(a, c)
  {
  }
}
