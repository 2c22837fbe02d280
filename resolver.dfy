/**
 * The field resolver that `resolverFactory(Model)` builds (src/index.js:42-66).
 *
 * Given the parent record, the field arguments, the request context, GraphQL's
 * `info` and an optional `extra` directive, the resolver
 *   1. decamelizes the field name into `key`;
 *   2. treats the field as an association when `Model.prototype[key]` is a
 *      function, and then queries `parent.related(key)`, else a fresh `new Model()`;
 *   3. adds `where("<table>.<arg>", value)` for every argument, in order;
 *   4. applies `extra`: a callback gets the target, a map calls methods on it;
 *   5. for an association, hands the target to `context.loaders` when there is
 *      one and fetches one result; for a root field, fetches all rows when the
 *      return type is a `GraphQLList` and one row otherwise.
 * The fetched value then goes through `exposeAttributes` (module Exposure).
 */
module Resolver {
  import opened Values
  import opened Query
  import opened ExtraDirective

  /** A Bookshelf model class: its table and the names of the functions on its prototype. */
  datatype ModelClass = ModelClass(tableName: string, prototype: set<string>)

  /** The parent record of a field: `related(name)` yields a relation target of the given shape. */
  datatype ParentRecord = ParentRecord(related: string -> TargetShape)

  /** What the resolver reads of GraphQL's `info`: the field name and `returnType.constructor.name`. */
  datatype Info = Info(fieldName: string, returnTypeName: string)

  /** The request context; `loaders` is the optional loader callback. */
  datatype Context = Context(loaders: Option<LoaderRegistry>)

  /** The optional fifth argument: absent (falsy), a function, or a map of method name to arguments. */
  datatype Extra = NoExtra | Callback | MethodMap(calls: ExtraMap)

  /** The value of an `Extra` at one moment, for specifications. */
  datatype ExtraView = Absent | CallbackView | Calls(entries: seq<MethodCall>)

  /** The TypeErrors the resolver can throw before any fetch starts. */
  datatype Failure =
    | NoParentRecord         // `modelInstance.related` on a null parent
    | NotAFunction(name: string)  // `model[key](...)` where `model[key]` is not a function

  /** Either a synchronous throw, or the promise of `fetch()` / `fetchAll()`. */
  datatype Outcome = Threw(failure: Failure) | Fetching(kind: FetchKind)

  /**
   * Everything one resolver call does to its target, what it returns, and,
   * when it hands the target to the loaders, the target's operations at that
   * moment.
   */
  datatype Trace = Trace(log: seq<Op>, outcome: Outcome, notice: Option<seq<Op>>)

  predicate IsAssociation(model: ModelClass, key: string) {
    key in model.prototype
  }

  predicate HasLoaders(context: Option<Context>) {
    context.Some? && context.value.loaders.Some?
  }

  function LoaderObjects(context: Option<Context>): set<object> {
    if HasLoaders(context) then {context.value.loaders.value} else {}
  }

  function ExtraObjects(extra: Extra): set<object> {
    if extra.MethodMap? then {extra.calls} else {}
  }

  function View(extra: Extra): ExtraView
    reads ExtraObjects(extra)
  {
    match extra
    case NoExtra => Absent
    case Callback => CallbackView
    case MethodMap(m) => Calls(m.entries)
  }

  /** The column an argument filters on: the target's table, a dot, the argument name. */
  function Column(table: string, key: string): string {
    table + "." + key
  }

  /** The `where` predicates the argument loop adds, one per argument, in argument order. */
  function WherePredicates(table: string, args: seq<Arg>): (r: seq<Op>)
    ensures |r| == |args|
    ensures forall i :: 0 <= i < |args| ==> r[i] == Where(Column(table, args[i].key), args[i].value)
  {
    if args == [] then []
    else [Where(Column(table, args[0].key), args[0].value)] + WherePredicates(table, args[1..])
  }

  /** The fetch that ends a resolver call that did not throw. */
  function Dispatch(log: seq<Op>, assoc: bool, hasLoaders: bool, returnTypeName: string): Trace {
    var kind := if !assoc && returnTypeName == "GraphQLList" then FetchAll else FetchOne;
    Trace(log + [Fetch(kind)], Fetching(kind), if assoc && hasLoaders then Some(log) else None)
  }

  /** What applying `extra` does to a target whose function members are `methods`. */
  function ExtraEffect(extra: ExtraView, methods: set<string>): Run {
    match extra
    case Absent => Run([], None)
    case CallbackView => Run([Customized], None)
    case Calls(entries) => Invocations(Visited(entries), methods)
  }

  /**
   * What one resolver call does once its target exists: the target's table
   * and function members, the arguments, `extra` as it was on entry, whether
   * the field is an association and whether the context has loaders.
   */
  function Script(table: string, methods: set<string>, args: seq<Arg>, extra: ExtraView,
                  assoc: bool, hasLoaders: bool, returnTypeName: string): Trace
  {
    var customized := WherePredicates(table, args) + ExtraEffect(extra, methods).ops;
    match ExtraEffect(extra, methods).failure
    case Some(name) => Trace(customized, Threw(NotAFunction(name)), None)
    case None => Dispatch(customized, assoc, hasLoaders, returnTypeName)
  }

  /** Script in three steps: filter, apply `extra`, then throw or dispatch. */
  lemma ScriptSteps(table: string, methods: set<string>, args: seq<Arg>, extra: ExtraView,
                    assoc: bool, hasLoaders: bool, returnTypeName: string)
    ensures var effect := ExtraEffect(extra, methods);
      var customized := WherePredicates(table, args) + effect.ops;
      Script(table, methods, args, extra, assoc, hasLoaders, returnTypeName) ==
        if effect.failure.Some? then Trace(customized, Threw(NotAFunction(effect.failure.value)), None)
        else Dispatch(customized, assoc, hasLoaders, returnTypeName)
  {
  }

  /** The argument loop of src/index.js:47-49. */
  method AddArgumentPredicates(target: QueryTarget, args: seq<Arg>)
    modifies target
    ensures target.log == old(target.log) + WherePredicates(target.tableName, args)
  {
    ghost var base := target.log;
    var i := 0;
    while i < |args|
      invariant 0 <= i <= |args|
      invariant target.log == base + WherePredicates(target.tableName, args[..i])
    {
      target.Where(Column(target.tableName, args[i].key), args[i].value);
      i := i + 1;
    }
    assert args[..i] == args;
  }

  /** The `extra` handling of src/index.js:50-59. */
  method ApplyExtra(target: QueryTarget, extra: Extra) returns (failure: Option<string>)
    requires extra.MethodMap? ==> extra.calls.Valid()
    modifies target, ExtraObjects(extra)
    ensures extra.MethodMap? ==> extra.calls.Valid()
    ensures var effect := ExtraEffect(old(View(extra)), target.methods);
      target.log == old(target.log) + effect.ops && failure == effect.failure
    ensures extra.MethodMap? ==> extra.calls.entries == ExtraAfter(old(extra.calls.entries), target.methods)
  {
    failure := None;
    match extra {
      case NoExtra =>
      case Callback =>
        target.HandToCallback();
      case MethodMap(m) =>
        failure := ApplyMethodMap(target, m);
    }
  }

  /** The dispatch of src/index.js:60-65, after filtering and `extra`. */
  method StartFetch(target: QueryTarget, context: Option<Context>, assoc: bool, returnTypeName: string)
    returns (outcome: Outcome)
    modifies target, LoaderObjects(context)
    ensures var t := Dispatch(old(target.log), assoc, HasLoaders(context), returnTypeName);
      && target.log == t.log && outcome == t.outcome
      && (HasLoaders(context) ==>
            context.value.loaders.value.registered ==
              old(context.value.loaders.value.registered) + (if t.notice.Some? then [Notice(target, t.notice.value)] else []))
  {
    if assoc {
      if HasLoaders(context) {
        context.value.loaders.value.Register(target);
      }
      target.StartFetch(FetchOne);
      return Fetching(FetchOne);
    }
    var kind := if returnTypeName == "GraphQLList" then FetchAll else FetchOne;
    target.StartFetch(kind);
    outcome := Fetching(kind);
  }

  /** Everything the resolver does to a fresh target (src/index.js:47-65). */
  method Shape(target: QueryTarget, args: seq<Arg>, context: Option<Context>, returnTypeName: string,
               extra: Extra, assoc: bool)
    returns (outcome: Outcome)
    requires target.log == []
    requires extra.MethodMap? ==> extra.calls.Valid()
    modifies target, ExtraObjects(extra), LoaderObjects(context)
    ensures extra.MethodMap? ==> extra.calls.Valid()
    ensures var t := Script(target.tableName, target.methods, args, old(View(extra)),
                            assoc, HasLoaders(context), returnTypeName);
      && target.log == t.log && outcome == t.outcome
      && (extra.MethodMap? ==> extra.calls.entries == ExtraAfter(old(extra.calls.entries), target.methods))
      && (HasLoaders(context) ==>
            context.value.loaders.value.registered ==
              old(context.value.loaders.value.registered) + (if t.notice.Some? then [Notice(target, t.notice.value)] else []))
  {
    ghost var view := View(extra);
    ghost var effect := ExtraEffect(view, target.methods);
    ScriptSteps(target.tableName, target.methods, args, view, assoc, HasLoaders(context), returnTypeName);
    AddArgumentPredicates(target, args);
    assert View(extra) == view;
    var failure := ApplyExtra(target, extra);
    assert target.log == WherePredicates(target.tableName, args) + effect.ops;
    assert failure == effect.failure;
    ghost var t := Script(target.tableName, target.methods, args, view, assoc, HasLoaders(context), returnTypeName);
    if failure.Some? {
      assert t == Trace(target.log, Threw(NotAFunction(failure.value)), None);
      return Threw(NotAFunction(failure.value));
    }
    assert t == Dispatch(target.log, assoc, HasLoaders(context), returnTypeName);
    outcome := StartFetch(target, context, assoc, returnTypeName);
  }

  /** The closure returned by `resolverFactory(Model)`. */
  class FieldResolver {
    const model: ModelClass

    /** `resolverFactory(Model)`. */
    constructor (model: ModelClass)
      ensures this.model == model
    {
      this.model := model;
    }

    method Resolve(parent: Option<ParentRecord>, args: seq<Arg>, context: Option<Context>, info: Info,
                   extra: Extra, decamelize: string -> string)
      returns (target: QueryTarget?, outcome: Outcome)
      requires extra.MethodMap? ==> extra.calls.Valid()
      modifies ExtraObjects(extra), LoaderObjects(context)
      ensures extra.MethodMap? ==> extra.calls.Valid()
      ensures var key := decamelize(info.fieldName);
        var assoc := IsAssociation(model, key);
        if assoc && parent.None? then
          && target == null && outcome == Threw(NoParentRecord)
          && (extra.MethodMap? ==> extra.calls.entries == old(extra.calls.entries))
          && (HasLoaders(context) ==> context.value.loaders.value.registered == old(context.value.loaders.value.registered))
        else
          && target != null && fresh(target)
          && target.origin == (if assoc then RelatedVia(key) else NewInstance)
          && TargetShape(target.tableName, target.methods) ==
               (if assoc then parent.value.related(key) else TargetShape(model.tableName, model.prototype))
          && var t := Script(target.tableName, target.methods, args, old(View(extra)),
                             assoc, HasLoaders(context), info.returnTypeName);
          && target.log == t.log && outcome == t.outcome
          && (extra.MethodMap? ==> extra.calls.entries == ExtraAfter(old(extra.calls.entries), target.methods))
          && (HasLoaders(context) ==>
                context.value.loaders.value.registered ==
                  old(context.value.loaders.value.registered) + (if t.notice.Some? then [Notice(target, t.notice.value)] else []))
    {
      var key := decamelize(info.fieldName);
      var isAssociation := key in model.prototype;
      if isAssociation && parent.None? {
        return null, Threw(NoParentRecord);
      }
      if isAssociation {
        target := new QueryTarget(RelatedVia(key), parent.value.related(key));
      } else {
        target := new QueryTarget(NewInstance, TargetShape(model.tableName, model.prototype));
      }

      outcome := Shape(target, args, context, info.returnTypeName, extra, isAssociation);
    }
  }
}
