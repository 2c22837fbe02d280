/**
 * What the resolver promises about the query it builds, proved of the
 * reference definition `Resolver.Script` (which `FieldResolver.Resolve` is
 * proved to follow).
 */
module ResolverProperties {
  import opened Values
  import opened Query
  import opened ExtraDirective
  import opened Resolver

  /**
   * Where a logged operation sits in a resolver call: the resolver's own
   * argument filters, then what `extra` did, then the resolver's own fetch.
   * A method that `extra` calls is logged as a `Call` whatever its name, so a
   * `where` or `fetch` called through `extra` sits in the middle phase.
   */
  function Phase(op: Op): nat {
    match op
    case Where(_, _) => 0
    case Call(_, _) => 1
    case Customized => 1
    case Fetch(_) => 2
  }

  /** Two arguments with different names never filter on the same column. */
  lemma ColumnInjective(table: string, k1: string, k2: string)
    ensures Column(table, k1) == Column(table, k2) ==> k1 == k2
  {
    if Column(table, k1) == Column(table, k2) {
      var n := |table| + 1;
      assert Column(table, k1)[n..] == k1;
      assert Column(table, k2)[n..] == k2;
    }
  }

  /**
   * Every argument yields exactly one `where`: the predicate at its own
   * position, on `<table>.<name>` with its value, and no other predicate of the
   * list filters on that column.
   */
  lemma OnePredicatePerArgument(table: string, args: seq<Arg>, i: nat)
    requires DistinctKeys(args) && i < |args|
    ensures var r := WherePredicates(table, args);
      && r[i] == Where(Column(table, args[i].key), args[i].value)
      && forall j :: 0 <= j < |r| && r[j].column == Column(table, args[i].key) ==> j == i
  {
    var r := WherePredicates(table, args);
    forall j | 0 <= j < |r| && r[j].column == Column(table, args[i].key)
      ensures j == i
    {
      ColumnInjective(table, args[j].key, args[i].key);
    }
  }

  /** Every operation `extra` adds to the log is a method call or the callback hand-off. */
  lemma ExtraEffectCustomizes(extra: ExtraView, methods: set<string>)
    ensures forall k :: 0 <= k < |ExtraEffect(extra, methods).ops| ==> Phase(ExtraEffect(extra, methods).ops[k]) == 1
  {
    if extra.Calls? {
      InvocationsCallPrefix(Visited(extra.entries), methods);
    }
  }

  /**
   * The log of a call is the argument filters, then what `extra` did, then
   * (unless `extra` threw) the resolver's own fetch: every one of the
   * resolver's filters comes before any operation of `extra`, and both come
   * before that fetch.
   */
  lemma PhasesInOrder(table: string, methods: set<string>, args: seq<Arg>, extra: ExtraView,
                      assoc: bool, hasLoaders: bool, returnTypeName: string)
    ensures var t := Script(table, methods, args, extra, assoc, hasLoaders, returnTypeName);
      && t.log[..|args|] == WherePredicates(table, args)
      && forall i, j :: 0 <= i <= j < |t.log| ==> Phase(t.log[i]) <= Phase(t.log[j])
  {
    var t := Script(table, methods, args, extra, assoc, hasLoaders, returnTypeName);
    var filters := WherePredicates(table, args);
    var effect := ExtraEffect(extra, methods);
    ScriptSteps(table, methods, args, extra, assoc, hasLoaders, returnTypeName);
    ExtraEffectCustomizes(extra, methods);
    var tail: seq<Op> := if effect.failure.Some? then [] else [Fetch(t.outcome.kind)];
    assert t.log == filters + effect.ops + tail;
    assert t.log[..|args|] == filters;
    forall k | 0 <= k < |t.log|
      ensures Phase(t.log[k]) == if k < |filters| then 0 else if k < |filters| + |effect.ops| then 1 else 2
    {
      if k < |filters| {
        assert t.log[k] == filters[k];
      } else if k < |filters| + |effect.ops| {
        assert t.log[k] == effect.ops[k - |filters|];
      } else {
        assert t.log[k] == tail[k - |filters| - |effect.ops|];
      }
    }
  }

  /**
   * The resolver's own fetch is started exactly when `extra` did not throw; it
   * is the last operation and no other logged operation is a `Fetch` (a
   * `fetch` called through an `extra` map is logged as a `Call`); an
   * association always uses `fetch`, and a root field uses `fetchAll` exactly
   * when its return type is a `GraphQLList`.
   */
  lemma FetchStrategy(table: string, methods: set<string>, args: seq<Arg>, extra: ExtraView,
                      assoc: bool, hasLoaders: bool, returnTypeName: string)
    ensures var t := Script(table, methods, args, extra, assoc, hasLoaders, returnTypeName);
      && (t.outcome.Fetching? <==> ExtraEffect(extra, methods).failure.None?)
      && (t.outcome.Threw? ==> t.outcome.failure == NotAFunction(ExtraEffect(extra, methods).failure.value))
      && (t.outcome.Fetching? ==>
            && |t.log| > 0 && t.log[|t.log| - 1] == Fetch(t.outcome.kind)
            && (forall j :: 0 <= j < |t.log| - 1 ==> !t.log[j].Fetch?)
            && (t.outcome.kind == FetchAll <==> !assoc && returnTypeName == "GraphQLList"))
      && (t.outcome.Threw? ==> forall j :: 0 <= j < |t.log| ==> !t.log[j].Fetch?)
  {
    var t := Script(table, methods, args, extra, assoc, hasLoaders, returnTypeName);
    PhasesInOrder(table, methods, args, extra, assoc, hasLoaders, returnTypeName);
    ScriptSteps(table, methods, args, extra, assoc, hasLoaders, returnTypeName);
    ExtraEffectCustomizes(extra, methods);
    var filters := WherePredicates(table, args);
    var effect := ExtraEffect(extra, methods);
    forall j | 0 <= j < |filters + effect.ops|
      ensures !(filters + effect.ops)[j].Fetch?
    {
      if j < |filters| {
        assert (filters + effect.ops)[j] == filters[j];
      } else {
        assert (filters + effect.ops)[j] == effect.ops[j - |filters|];
      }
    }
  }

  /**
   * The target goes to the loaders exactly for an association whose context
   * has them, once nothing threw; they get it with its filters and `extra`
   * applied, and the fetch comes after.
   */
  lemma LoaderRegistration(table: string, methods: set<string>, args: seq<Arg>, extra: ExtraView,
                           assoc: bool, hasLoaders: bool, returnTypeName: string)
    ensures var t := Script(table, methods, args, extra, assoc, hasLoaders, returnTypeName);
      && (t.notice.Some? <==> assoc && hasLoaders && t.outcome.Fetching?)
      && (t.notice.Some? ==>
            && t.notice.value == WherePredicates(table, args) + ExtraEffect(extra, methods).ops
            && t.log == t.notice.value + [Fetch(FetchOne)])
  {
    ScriptSteps(table, methods, args, extra, assoc, hasLoaders, returnTypeName);
  }

  /** A callback `extra` is invoked exactly once, between the filters and the fetch. */
  lemma CallbackInvokedOnce(table: string, methods: set<string>, args: seq<Arg>,
                            assoc: bool, hasLoaders: bool, returnTypeName: string)
    ensures var t := Script(table, methods, args, CallbackView, assoc, hasLoaders, returnTypeName);
      && t.outcome.Fetching?
      && t.log == WherePredicates(table, args) + [Customized, Fetch(t.outcome.kind)]
  {
    ScriptSteps(table, methods, args, CallbackView, assoc, hasLoaders, returnTypeName);
  }

  /** The `Call` operations for a list of map entries, in order. */
  function CallsOf(entries: seq<MethodCall>): (r: seq<Op>)
    ensures |r| == |entries|
    ensures forall i :: 0 <= i < |entries| ==> r[i] == Call(entries[i].name, entries[i].arguments)
  {
    seq(|entries|, i requires 0 <= i < |entries| => Call(entries[i].name, entries[i].arguments))
  }

  /**
   * A map `extra` whose keys all name functions of the target and which has
   * no "key" entry after the first calls each method once, with its own
   * argument list, in key order, and then fetches.
   */
  lemma MethodMapCallsEachKey(table: string, methods: set<string>, args: seq<Arg>, entries: seq<MethodCall>,
                              assoc: bool, hasLoaders: bool, returnTypeName: string)
    requires forall i :: 0 <= i < |entries| ==> entries[i].name in methods
    requires forall i :: 1 <= i < |entries| ==> entries[i].name != "key"
    ensures var t := Script(table, methods, args, Calls(entries), assoc, hasLoaders, returnTypeName);
      && t.outcome.Fetching?
      && t.log == WherePredicates(table, args) + CallsOf(entries) + [Fetch(t.outcome.kind)]
  {
    EveryKeyVisited(entries);
    InvocationsCallPrefix(entries, methods);
    assert Invocations(entries, methods).ops == CallsOf(entries);
    ScriptSteps(table, methods, args, Calls(entries), assoc, hasLoaders, returnTypeName);
  }

  /** No call the map loop makes is to "key" when a later entry is named "key". */
  lemma LaterKeyEntrySkipped(entries: seq<MethodCall>, methods: set<string>, j: nat)
    requires DistinctNames(entries)
    requires 0 < j < |entries| && entries[j].name == "key"
    ensures forall op :: op in Invocations(Visited(entries), methods).ops ==> op.Call? && op.name != "key"
  {
    var v := Visited(entries);
    VisitedMembers(entries);
    InvocationsCallPrefix(v, methods);
    assert entries[0].name != entries[j].name;
  }

  /**
   * A map entry literally named "key" that is not the first key is never
   * called: the loop deletes it before reaching it.
   */
  lemma LaterKeyEntryNeverCalled(table: string, methods: set<string>, args: seq<Arg>, entries: seq<MethodCall>,
                                 assoc: bool, hasLoaders: bool, returnTypeName: string, j: nat)
    requires DistinctNames(entries)
    requires 0 < j < |entries| && entries[j].name == "key"
    ensures var t := Script(table, methods, args, Calls(entries), assoc, hasLoaders, returnTypeName);
      forall k :: 0 <= k < |t.log| ==> !(t.log[k].Call? && t.log[k].name == "key")
  {
    var t := Script(table, methods, args, Calls(entries), assoc, hasLoaders, returnTypeName);
    var ops := Invocations(Visited(entries), methods).ops;
    var filters := WherePredicates(table, args);
    LaterKeyEntrySkipped(entries, methods, j);
    ScriptSteps(table, methods, args, Calls(entries), assoc, hasLoaders, returnTypeName);
    var run := ExtraEffect(Calls(entries), methods);
    assert run.ops == ops;
    var tail: seq<Op> := if run.failure.Some? then [] else [Fetch(t.outcome.kind)];
    assert t.log == filters + ops + tail;
    forall k | 0 <= k < |t.log|
      ensures !(t.log[k].Call? && t.log[k].name == "key")
    {
      if k < |filters| {
        assert t.log[k] == filters[k];
      } else if k < |filters| + |ops| {
        var m := k - |filters|;
        assert ops[m] in ops;
        assert t.log[k] == ops[m];
      } else {
        assert t.log[k] == tail[k - |filters| - |ops|];
      }
    }
  }

  /**
   * The argument names `first` and `after` get no special treatment: like any
   * other argument they become `where` predicates on `<table>.first` and
   * `<table>.after`.
   */
  lemma PaginationArgumentsAreFilters(table: string, methods: set<string>, args: seq<Arg>, extra: ExtraView,
                                      assoc: bool, hasLoaders: bool, returnTypeName: string, i: nat)
    requires i < |args| && (args[i].key == "first" || args[i].key == "after")
    ensures var t := Script(table, methods, args, extra, assoc, hasLoaders, returnTypeName);
      t.log[i] == Where(Column(table, args[i].key), args[i].value)
  {
    PhasesInOrder(table, methods, args, extra, assoc, hasLoaders, returnTypeName);
    var t := Script(table, methods, args, extra, assoc, hasLoaders, returnTypeName);
    assert t.log[i] == t.log[..|args|][i];
  }
}
