/**
 * The ORM query target that the resolver builds up: a Bookshelf model
 * instance (for a root field) or the relation returned by `related(name)`
 * (for an association). The model does not run queries; the target records,
 * in order, every operation the resolver applies to it, so that contracts can
 * say exactly what the resolver did.
 */
module Query {
  import opened Values

  /** Which of the two fetch strategies was started. */
  datatype FetchKind = FetchOne | FetchAll

  /** One operation applied to a query target. */
  datatype Op =
    | Where(column: string, value: Value)        // `target.where(column, value)`
    | Call(name: string, arguments: seq<Value>)  // `target[name](...arguments)`
    | Customized                                 // the target was handed to an `extra` callback
    | Fetch(kind: FetchKind)                     // `target.fetch()` / `target.fetchAll()`

  /** How the target was obtained. */
  datatype Origin = RelatedVia(name: string) | NewInstance

  /** What a fresh target looks like: its table and the names of its function-valued members. */
  datatype TargetShape = TargetShape(tableName: string, methods: set<string>)

  class QueryTarget {
    const origin: Origin
    const tableName: string
    /** The names `n` for which `target[n]` is a function. */
    const methods: set<string>
    var log: seq<Op>

    constructor (origin: Origin, shape: TargetShape)
      ensures this.origin == origin && tableName == shape.tableName && methods == shape.methods
      ensures log == []
    {
      this.origin := origin;
      tableName := shape.tableName;
      methods := shape.methods;
      log := [];
    }

    method Where(column: string, value: Value)
      modifies this
      ensures log == old(log) + [Op.Where(column, value)]
    {
      log := log + [Op.Where(column, value)];
    }

    /** `target[name](...arguments)`; only reachable once `target[name]` is known to be a function. */
    method Invoke(name: string, arguments: seq<Value>)
      requires name in methods
      modifies this
      ensures log == old(log) + [Call(name, arguments)]
    {
      log := log + [Call(name, arguments)];
    }

    /** The target is passed to a caller-supplied customization callback. */
    method HandToCallback()
      modifies this
      ensures log == old(log) + [Customized]
    {
      log := log + [Customized];
    }

    method StartFetch(kind: FetchKind)
      modifies this
      ensures log == old(log) + [Fetch(kind)]
    {
      log := log + [Fetch(kind)];
    }
  }

  /** One hand-over to the loaders: the target, and the operations applied to it by then. */
  datatype Notice = Notice(target: QueryTarget, logSoFar: seq<Op>)

  /** The request context's loader callback: it is handed query targets to batch. */
  class LoaderRegistry {
    var registered: seq<Notice>

    constructor ()
      ensures registered == []
    {
      registered := [];
    }

    method Register(target: QueryTarget)
      modifies this
      ensures registered == old(registered) + [Notice(target, target.log)]
    {
      registered := registered + [Notice(target, target.log)];
    }
  }
}
