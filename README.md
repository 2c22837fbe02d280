# graphql-bookshelfjs resolver, modelled in Dafny

`resolverFactory(Model)` turns a Bookshelf model class into a GraphQL field
resolver. For each field it resolves, the resolver:

- decamelizes the field name;
- treats the field as an association when the model's prototype has a function
  of that name, and otherwise as a root field;
- obtains a query target: `parent.related(name)` for an association, a fresh
  `new Model()` otherwise;
- adds one `where("<table>.<arg>", value)` per GraphQL argument;
- applies the optional `extra` directive, which is either a callback that gets
  the target or a map from query-builder method name to argument list;
- for an association, hands the target to `context.loaders` when there is
  one and calls `fetch()`;
- for a root field, calls `fetchAll()` when the return type is a
  `GraphQLList` and `fetch()` otherwise.

The promise of that fetch resolves through `exposeAttributes`. This helper
copies each fetched record's shallow serialization onto the record itself, so
that GraphQL can read the columns as plain properties.

The project has six modules:

- `Values` (`values.dfy`) holds JavaScript values, argument lists and the
  entries of an `extra` map in `for...in` order, with lookup and `delete`.
- `Query` (`query.dfy`) holds the query target, a class that logs every
  operation applied to it (`where`, a method call, the hand-off to a callback,
  the fetch), and the loader registry of the request context.
- `ExtraDirective` (`extra.dfy`) holds the method-map loop of `extra`.
- `Resolver` (`resolver.dfy`) holds the resolver closure. `Resolver.Script`
  is the reference definition of what one call does. The methods are proved
  to follow it.
- `ResolverProperties` (`resolver_properties.dfy`) proves what the resolver
  promises, as lemmas about `Script`.
- `Exposure` (`exposure.dfy`) holds `exposeAttributes`.

Some behaviours of the code are easy to miss:

- **`delete extra.key` deletes the property literally named `"key"`.** It does
  not delete the property being visited. In `for...in`, a property deleted
  before it is visited is skipped. So after the first method call, a
  `"key"` entry is never called, and the caller's map loses that entry.
  Every other entry of the caller's map stays. If the first key does not
  name a function, the call throws before the `delete`, and the map stays
  unchanged.
- **A map entry whose name is not a function of the target throws a
  TypeError.** The calls before it have already happened, and no fetch starts.
- **An association with a null parent throws** on `related`.
- **The resolver has no pagination.** `first` and `after` are not removed
  from `args`, and no field is fetched as a page or as a connection. They
  become `where` predicates like any other argument
  (`ResolverProperties.PaginationArgumentsAreFilters`).

## Model

| member | source | states |
|---|---|---|
| Values.LookupPresent | src/index.js:55 | `extra[key]`, for a key that is present, reads that key's own argument list, since an object's keys are distinct |
| Values.RemoveNamedMembers | src/index.js:56 | after `delete obj[name]`, the object holds exactly its former entries that are not named `name` |
| Values.RemoveNamedDistinct | src/index.js:56 | deleting a property keeps the keys of the object distinct |
| Query.QueryTarget.constructor | src/index.js:46 | a new target has the table and function members of its shape and has had no operation applied |
| Query.QueryTarget.Where | src/index.js:48 | `where(column, value)` appends that predicate to the target's operations |
| Query.QueryTarget.Invoke | src/index.js:55 | `target[name](...arguments)`, callable only when `target[name]` is a function, appends that call |
| Query.QueryTarget.HandToCallback | src/index.js:52 | passing the target to the `extra` callback is recorded once |
| Query.QueryTarget.StartFetch | src/index.js:62-65 | `fetch()` / `fetchAll()` appends the chosen fetch |
| Query.LoaderRegistry.Register | src/index.js:61 | `context.loaders(model)` appends the target, with the operations applied to it so far, to what the loaders were given |
| ExtraDirective.ExtraMap.Get | src/index.js:55 | reading `extra[key]` yields the argument list of the entry with that name, and nothing when no entry has that name |
| ExtraDirective.ExtraMap.Delete | src/index.js:56 | `delete extra[name]` removes that entry only, keeps the rest in order, and keeps the keys distinct |
| ExtraDirective.VisitedMembers | src/index.js:54-57 | the keys the loop visits are the first key, then every later key except one literally named `"key"`, in map order |
| ExtraDirective.InvocationsCallPrefix | src/index.js:54-55 | each visited entry is called with its own argument list, in order, up to the first one whose name is not a function of the target; the run then fails with that name, and it fails in no other case |
| ExtraDirective.EveryKeyVisited | src/index.js:54-57 | with no `"key"` entry after the first, the loop visits every key in order |
| ExtraDirective.ExtraAfter | src/index.js:54-57 | after the loop, the caller's map keeps every entry not named `"key"` and gains none; the `"key"` entry is gone exactly when the first call succeeded, and otherwise the map is unchanged |
| ExtraDirective.VisitKey | src/index.js:55-56 | one iteration: a key that is still present and names a function is called with its list, and then `"key"` is deleted; a key that is not a function throws before the delete; a key deleted earlier is skipped |
| ExtraDirective.ApplyMethodMap | src/index.js:54-57 | the whole loop: the target's new operations and the failure are those of the visited keys, and the map is left as `ExtraAfter` says |
| Resolver.WherePredicates | src/index.js:47-48 | one predicate per argument, at the argument's own position, on `<table>.<arg>` with the argument's value |
| Resolver.AddArgumentPredicates | src/index.js:47-49 | the argument loop appends exactly the predicates of `WherePredicates`, in argument order |
| Resolver.ApplyExtra | src/index.js:50-59 | no `extra` does nothing, a callback `extra` gets the target once, and a map `extra` runs the method-map loop |
| Resolver.StartFetch | src/index.js:60-65 | an association hands the target to the loaders when the context has them, before any fetch (they see the log as it was on entry), and then uses `fetch`; a root field uses `fetchAll` exactly when the return type is `GraphQLList` |
| Resolver.Shape | src/index.js:47-65 | filtering, `extra` and dispatch on a fresh target together do exactly what `Script` says, to the target, the `extra` map and the loaders |
| Resolver.FieldResolver.constructor | src/index.js:42 | `resolverFactory(Model)` captures the model class |
| Resolver.FieldResolver.Resolve | src/index.js:43-66 | the field is an association exactly when the prototype has the decamelized name; an association with no parent throws and changes nothing; otherwise a fresh target is obtained via `related(key)` or `new Model()` and is shaped as `Script` says |
| ResolverProperties.ColumnInjective | src/index.js:48 | different argument names filter on different columns |
| ResolverProperties.OnePredicatePerArgument | src/index.js:47-49 | every argument has exactly one predicate on its column, at its own position |
| ResolverProperties.ExtraEffectCustomizes | src/index.js:50-59 | every operation `extra` adds to the log is a method call or the callback hand-off; none is one of the resolver's own `where` predicates or its own fetch |
| ResolverProperties.PhasesInOrder | src/index.js:47-65 | the argument predicates come first, in order; every one of the resolver's own predicates precedes every operation of `extra`, and both precede the resolver's own fetch |
| ResolverProperties.FetchStrategy | src/index.js:55-65 | the resolver's own fetch starts exactly when `extra` did not throw; it is the last operation, and there is no `Fetch` other than the resolver's own; it is `fetchAll` exactly for a root field whose return type is `GraphQLList`; a throw reports the name that was not a function |
| ResolverProperties.LoaderRegistration | src/index.js:60-62 | the target goes to the loaders exactly for an association whose context has loaders, when nothing threw; they get it with all predicates and `extra` applied, and the `fetch` follows |
| ResolverProperties.CallbackInvokedOnce | src/index.js:51-52 | a callback `extra` is applied exactly once, after the predicates and before the fetch |
| ResolverProperties.MethodMapCallsEachKey | src/index.js:54-57 | when every key names a function and no later key is `"key"`, each key is called once with its list, in key order, and then the fetch follows |
| ResolverProperties.LaterKeyEntrySkipped | src/index.js:54-57 | when a key other than the first is literally `"key"`, the loop makes only method calls, and none of them is to `"key"` |
| ResolverProperties.LaterKeyEntryNeverCalled | src/index.js:54-57 | the same holds for the whole resolver call: no operation of it is a call of `"key"` |
| ResolverProperties.PaginationArgumentsAreFilters | src/index.js:47-48 | arguments named `first` or `after` become `where` predicates on `<table>.first` / `<table>.after` like any other argument |
| Exposure.Assign | src/index.js:16 | `Object.assign`: every source property now reads the source value, every other target property is unchanged, and no other key appears |
| Exposure.AssignIdempotent | src/index.js:16 | assigning the same serialization twice gives the same result as assigning it once |
| Exposure.Record.ExposeModelAttributes | src/index.js:14-17 | the record is merged in place with its shallow serialization, and the same record is returned; a loaded relation that is not an attribute is neither added nor changed |
| Exposure.ExposeAttributes | src/index.js:13-25 | a falsy value is returned as is; a collection yields the same records in the same length and order; a single record yields itself; every record involved, however often it occurs, has been merged with its attributes exactly as by one `Object.assign` |

## Left out

- `humps.decamelize` is a third-party library. It is a parameter of `Resolve` (an arbitrary `string -> string`).
- The `./loaders` module and `getLoaders` (src/index.js:3, 33-35) are not part of this model. The accessor only returns the module.
- Bookshelf itself (`where`, `related`, `fetch`, `fetchAll`, `serialize`) is not modelled. The query target records the operations applied to it instead of running a query. `related(name)` is an arbitrary function from a name to a target's table and function members. A fetch is a recorded tag, not a promise.
- The link from the promise to `exposeAttributes` (`.then`) is not modelled as a call. `Exposure.ExposeAttributes` takes the fetched value as an input.
- Failures of the fetch itself propagate through the promise and are not modelled.
- The effects of the `extra` callback on the target are the caller's code. The model records only that the callback got the target.
- The methods an `extra` map calls are recorded, not run. Their own effects on the query are not modelled.
- ResolverProperties.CallbackInvokedOnce: a callback `extra` that throws is not modelled; the callback always returns here. In the source such a throw at src/index.js:52 propagates out of the resolver, and neither the loader notification nor the fetch happens.
- Query.QueryTarget.Invoke: a method of an `extra` map that is a function but throws when called is not modelled; the call always returns here. In the source such a throw at src/index.js:55 propagates before the `delete` and ends the resolver call, with no fetch. Only the throw for a name that is not a function (`NotAFunction`) is modelled.
- Query.LoaderRegistry.Register: a `context.loaders` callback that throws is not modelled; the hand-over always returns here. In the source such a throw at src/index.js:61 propagates, and the `fetch` on line 62 does not happen.
- Resolver.FieldResolver.Resolve: a non-null parent is assumed to be a Bookshelf record with `related`. At the root GraphQL often passes a plain root value such as `{}`; a root field whose decamelized name is a prototype function (such as `fetch`) would then throw at src/index.js:46, and that case is not modelled.
- A map entry named `where`, `fetch` or `fetchAll` calls that very method (src/index.js:55), which adds a predicate or starts a second fetch in the source. It is recorded as a `Call`, so `ExtraEffectCustomizes`, `PhasesInOrder` and `FetchStrategy` speak only of the resolver's own predicates and fetch.
- Each `extra` map entry holds a list of arguments. An entry whose value cannot be spread, which would throw, is not modelled.
- `model.tableName` is modelled as a string. Bookshelf also allows a function there, but src/index.js:48 interpolates it as text without calling it; a function-valued `tableName` is not modelled.
- GraphQL `info` is reduced to the field name and the return type's constructor name.
- `for...in` order is taken to be the order of the argument list and of the map entries. JavaScript's rule that integer-like keys come first is not modelled.
- Inherited enumerable properties, which `for...in` also visits, are not modelled.
- `context.loaders` is present or absent. A truthy non-function `loaders`, which would throw, is not modelled.
- The classification in `exposeAttributes` is by structure. A value with an own `length` is `Fetched.Many`, and a falsy value is `Fetched.Nothing`. Falsy values other than `null`, and collection objects other than lists, are not distinguished.
- Exposure.Record.SerializeShallow: the `hidden`/`visible` options and the pivot attributes of Bookshelf's `serialize` are left out. It returns the attributes as they are.
- Exposure.Assign: the record's own properties are a map kept apart from Bookshelf's internal fields. An attribute whose name clashes with an internal field (such as `attributes`) does not overwrite that field here.
- Exposure.ExposeAttributes: a collection is returned as the same list of records. That `collection.map` builds a new array, rather than returning the collection object, is not modelled.
