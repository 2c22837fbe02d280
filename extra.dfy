/**
 * The `extra` directive in its map form (src/index.js:54-57): for each key of
 * the map, in `for...in` order, the query target's method of that name is
 * called with the key's argument list spread positionally, and after every
 * call the property literally named "key" is deleted from the caller's map.
 *
 * JavaScript's `for...in` does not visit a property that is deleted before
 * the loop reaches it. So the first key is always visited. Every later key
 * is visited unless it is literally "key". A name whose target member is not
 * a function makes the call throw a TypeError, which ends the loop.
 */
module ExtraDirective {
  import opened Values
  import opened Query

  /** The caller's `extra` object, which the resolver mutates through `delete`. */
  class ExtraMap {
    var entries: seq<MethodCall>

    ghost predicate Valid()
      reads this
    {
      DistinctNames(entries)
    }

    constructor (entries: seq<MethodCall>)
      requires DistinctNames(entries)
      ensures Valid() && this.entries == entries
    {
      this.entries := entries;
    }

    /** `extra[name]`: the argument list of the entry named `name`, or nothing when there is none. */
    method Get(name: string) returns (r: Option<seq<Value>>)
      requires Valid()
      ensures forall i :: 0 <= i < |entries| && entries[i].name == name ==> r == Some(entries[i].arguments)
      ensures (forall c :: c in entries ==> c.name != name) ==> r == None
      ensures r == Lookup(entries, name)
    {
      r := Lookup(entries, name);
      if i :| 0 <= i < |entries| && entries[i].name == name {
        LookupPresent(entries, i);
      } else {
        LookupAbsent(entries, name);
      }
    }

    method Delete(name: string)
      requires Valid()
      modifies this
      ensures Valid() && entries == RemoveNamed(old(entries), name)
    {
      RemoveNamedDistinct(entries, name);
      entries := RemoveNamed(entries, name);
    }
  }

  /** The entries that the `for...in` loop reaches, in order, if no call throws. */
  function Visited(calls: seq<MethodCall>): seq<MethodCall> {
    if calls == [] then [] else [calls[0]] + RemoveNamed(calls[1..], "key")
  }

  /**
   * The first key is always reached; a later key is reached exactly when it is
   * not literally "key", so "key" is only ever visited in first position.
   */
  lemma VisitedMembers(calls: seq<MethodCall>)
    ensures var r := Visited(calls);
      && (calls == [] <==> r == [])
      && (calls != [] ==> r[0] == calls[0])
      && (forall c :: c in r <==> c in calls && (c == calls[0] || c.name != "key"))
      && (forall i :: 0 < i < |r| ==> r[i].name != "key")
  {
    if calls != [] {
      var rest := RemoveNamed(calls[1..], "key");
      RemoveNamedMembers(calls[1..], "key");
      var r := Visited(calls);
      assert r == [calls[0]] + rest;
      forall i | 0 < i < |r|
        ensures r[i].name != "key"
      {
        assert r[i] == rest[i - 1] && rest[i - 1] in rest;
      }
      forall c | c in calls && c != calls[0] && c.name != "key"
        ensures c in r
      {
        var k :| 0 <= k < |calls| && calls[k] == c;
        assert k > 0 && calls[1..][k - 1] == c;
      }
    }
  }

  /** The outcome of calling the visited entries in order. */
  datatype Run = Run(ops: seq<Op>, failure: Option<string>)

  /**
   * The calls made for `visited` against a target whose function members are
   * `methods`, in order, stopping at the first entry that is not a function.
   */
  function Invocations(visited: seq<MethodCall>, methods: set<string>): Run
  {
    if visited == [] then Run([], None)
    else if visited[0].name !in methods then Run([], Some(visited[0].name))
    else
      var rest := Invocations(visited[1..], methods);
      Run([Call(visited[0].name, visited[0].arguments)] + rest.ops, rest.failure)
  }

  /**
   * Every entry before the first one that is not a function is called, with
   * its own argument list; that entry's name is the failure; no failure means
   * every visited entry was called.
   */
  lemma {:induction false} InvocationsCallPrefix(visited: seq<MethodCall>, methods: set<string>)
    ensures var r := Invocations(visited, methods);
      && |r.ops| <= |visited|
      && (forall i :: 0 <= i < |r.ops| ==>
            visited[i].name in methods && r.ops[i] == Call(visited[i].name, visited[i].arguments))
      && (r.failure.None? <==> |r.ops| == |visited|)
      && (r.failure.Some? ==>
            visited[|r.ops|].name !in methods && r.failure.value == visited[|r.ops|].name)
  {
    if visited != [] && visited[0].name in methods {
      InvocationsCallPrefix(visited[1..], methods);
    }
  }

  /** The caller's map after the loop: "key" is gone once any call has completed. */
  function ExtraAfter(calls: seq<MethodCall>, methods: set<string>): (r: seq<MethodCall>)
    ensures forall c :: c in calls && c.name != "key" ==> c in r
    ensures forall c :: c in r ==> c in calls
    ensures calls != [] && calls[0].name in methods ==> forall c :: c in r ==> c.name != "key"
    ensures !(calls != [] && calls[0].name in methods) ==> r == calls
  {
    RemoveNamedMembers(calls, "key");
    if calls != [] && calls[0].name in methods then RemoveNamed(calls, "key") else calls
  }

  lemma {:induction false} RemoveNamedAppend(a: seq<MethodCall>, b: seq<MethodCall>, name: string)
    ensures RemoveNamed(a + b, name) == RemoveNamed(a, name) + RemoveNamed(b, name)
  {
    if a == [] {
      assert a + b == b;
    } else {
      assert (a + b)[1..] == a[1..] + b;
      RemoveNamedAppend(a[1..], b, name);
    }
  }

  lemma {:induction false} RemoveNamedIdle(calls: seq<MethodCall>, name: string)
    requires forall c :: c in calls ==> c.name != name
    ensures RemoveNamed(calls, name) == calls
  {
    if calls != [] {
      assert calls[0] in calls;
      assert forall c :: c in calls[1..] ==> c in calls;
      RemoveNamedIdle(calls[1..], name);
      assert [calls[0]] + calls[1..] == calls;
    }
  }

  lemma RemoveNamedTwice(calls: seq<MethodCall>, name: string)
    ensures RemoveNamed(RemoveNamed(calls, name), name) == RemoveNamed(calls, name)
  {
    RemoveNamedMembers(calls, name);
    RemoveNamedIdle(RemoveNamed(calls, name), name);
  }

  /** Visiting one more entry of the snapshot. */
  lemma VisitedSnoc(s: seq<MethodCall>, i: nat)
    requires i < |s|
    ensures Visited(s[..i + 1]) == Visited(s[..i]) + (if i == 0 || s[i].name != "key" then [s[i]] else [])
  {
    var p, q := s[..i], s[..i + 1];
    if i == 0 {
      assert q == [s[0]];
      assert Visited(q) == [s[0]] + RemoveNamed([], "key");
    } else {
      assert q[0] == p[0];
      assert q[1..] == p[1..] + [s[i]];
      RemoveNamedAppend(p[1..], [s[i]], "key");
      assert RemoveNamed([s[i]], "key") == if s[i].name != "key" then [s[i]] else [] by {
        assert [s[i]][1..] == [];
      }
      assert Visited(q) == [q[0]] + RemoveNamed(q[1..], "key");
      assert Visited(p) == [p[0]] + RemoveNamed(p[1..], "key");
    }
  }

  /** After the first entry, the rest of the snapshot only adds the entries not named "key". */
  lemma VisitedSplit(s: seq<MethodCall>, i: nat)
    requires 1 <= i <= |s|
    ensures Visited(s) == Visited(s[..i]) + RemoveNamed(s[i..], "key")
  {
    assert s[1..] == s[..i][1..] + s[i..];
    RemoveNamedAppend(s[..i][1..], s[i..], "key");
  }

  /** Calls made for `a + b`: once `a` fails, nothing of `b` is called. */
  lemma {:induction false} InvocationsAppend(a: seq<MethodCall>, b: seq<MethodCall>, methods: set<string>)
    ensures var ra := Invocations(a, methods);
      Invocations(a + b, methods) ==
        if ra.failure.Some? then ra
        else Run(ra.ops + Invocations(b, methods).ops, Invocations(b, methods).failure)
  {
    if a == [] {
      assert a + b == b;
    } else {
      var ab := a + b;
      assert ab[0] == a[0];
      assert ab[1..] == a[1..] + b;
      if a[0].name in methods {
        InvocationsAppend(a[1..], b, methods);
        var head := Call(a[0].name, a[0].arguments);
        var rab := Invocations(ab[1..], methods);
        var ra := Invocations(a[1..], methods);
        assert Invocations(ab, methods) == Run([head] + rab.ops, rab.failure);
        assert Invocations(a, methods) == Run([head] + ra.ops, ra.failure);
        if ra.failure.None? {
          assert [head] + (ra.ops + Invocations(b, methods).ops) == ([head] + ra.ops) + Invocations(b, methods).ops;
        }
      }
    }
  }

  /** Without a non-first "key" entry every key is called, in map order, until one is not a function. */
  lemma EveryKeyVisited(calls: seq<MethodCall>)
    requires forall i :: 1 <= i < |calls| ==> calls[i].name != "key"
    ensures Visited(calls) == calls
  {
    if calls != [] {
      forall c | c in calls[1..]
        ensures c.name != "key"
      {
        var k :| 0 <= k < |calls[1..]| && calls[1..][k] == c;
        assert calls[k + 1] == c;
      }
      RemoveNamedIdle(calls[1..], "key");
      assert [calls[0]] + calls[1..] == calls;
    }
  }

  /** Calling one more visited entry. */
  lemma InvocationsSnoc(a: seq<MethodCall>, c: MethodCall, methods: set<string>)
    ensures var ra := Invocations(a, methods);
      Invocations(a + [c], methods) ==
        if ra.failure.Some? then ra
        else if c.name in methods then Run(ra.ops + [Call(c.name, c.arguments)], None)
        else Run(ra.ops, Some(c.name))
  {
    InvocationsAppend(a, [c], methods);
    assert [c][1..] == [];
  }

  /** What `extra[name]` reads for a key of the snapshot, before and after "key" is deleted. */
  lemma LookupSnapshot(snapshot: seq<MethodCall>, i: nat, deleted: bool)
    requires DistinctNames(snapshot) && i < |snapshot|
    ensures var live := if deleted then RemoveNamed(snapshot, "key") else snapshot;
      Lookup(live, snapshot[i].name) ==
        if deleted && snapshot[i].name == "key" then None else Some(snapshot[i].arguments)
  {
    var c := snapshot[i];
    if !deleted {
      LookupPresent(snapshot, i);
    } else {
      var live := RemoveNamed(snapshot, "key");
      RemoveNamedMembers(snapshot, "key");
      if c.name != "key" {
        assert c in snapshot;
        assert c in live;
        var k :| 0 <= k < |live| && live[k] == c;
        RemoveNamedDistinct(snapshot, "key");
        LookupPresent(live, k);
      } else {
        LookupAbsent(live, c.name);
      }
    }
  }

  /** When the loop stops, either every key was visited or a call failed and the rest is never visited. */
  lemma LoopExit(snapshot: seq<MethodCall>, i: nat, methods: set<string>)
    requires i <= |snapshot|
    requires i < |snapshot| ==> 1 <= i && Invocations(Visited(snapshot[..i]), methods).failure.Some?
    ensures Invocations(Visited(snapshot), methods) == Invocations(Visited(snapshot[..i]), methods)
  {
    if i < |snapshot| {
      VisitedSplit(snapshot, i);
      InvocationsAppend(Visited(snapshot[..i]), RemoveNamed(snapshot[i..], "key"), methods);
    } else {
      assert snapshot[..i] == snapshot;
    }
  }

  /**
   * One turn of the loop of src/index.js:54-57 for the snapshot key `name`:
   * a key deleted since the loop started is skipped; otherwise the target's
   * method is called with the key's list and "key" is deleted, unless the
   * target has no such function, which throws.
   */
  method VisitKey(target: QueryTarget, extra: ExtraMap, name: string) returns (failure: Option<string>)
    requires extra.Valid()
    modifies target, extra
    ensures extra.Valid()
    ensures match Lookup(old(extra.entries), name)
      case None =>
        failure.None? && target.log == old(target.log) && extra.entries == old(extra.entries)
      case Some(arguments) =>
        if name in target.methods then
          failure.None? && target.log == old(target.log) + [Call(name, arguments)]
          && extra.entries == RemoveNamed(old(extra.entries), "key")
        else
          failure == Some(name) && target.log == old(target.log) && extra.entries == old(extra.entries)
  {
    failure := None;
    var current := extra.Get(name);
    if current.Some? {
      if name !in target.methods {
        failure := Some(name);
      } else {
        target.Invoke(name, current.value);
        extra.Delete("key");
      }
    }
  }

  /**
   * The state of the loop of src/index.js:54-57 after the first `i` snapshot
   * keys: the calls made so far extend `base`, and "key" has been deleted
   * from the map once the first call completed.
   */
  ghost predicate LoopState(snapshot: seq<MethodCall>, i: nat, methods: set<string>, base: seq<Op>,
                            log: seq<Op>, failure: Option<string>, entries: seq<MethodCall>)
  {
    && i <= |snapshot|
    && var run := Invocations(Visited(snapshot[..i]), methods);
    && log == base + run.ops
    && failure == run.failure
    && (i > 0 && failure.None? ==> snapshot[0].name in methods)
    && entries == if i > 0 && snapshot[0].name in methods then RemoveNamed(snapshot, "key") else snapshot
  }

  /** One turn of the loop keeps LoopState. */
  lemma LoopStep(snapshot: seq<MethodCall>, i: nat, methods: set<string>, base: seq<Op>,
                 log: seq<Op>, entries: seq<MethodCall>,
                 log': seq<Op>, failure': Option<string>, entries': seq<MethodCall>)
    requires DistinctNames(snapshot) && i < |snapshot|
    requires LoopState(snapshot, i, methods, base, log, None, entries)
    requires match Lookup(entries, snapshot[i].name)
      case None => failure'.None? && log' == log && entries' == entries
      case Some(arguments) =>
        if snapshot[i].name in methods then
          failure'.None? && log' == log + [Call(snapshot[i].name, arguments)]
          && entries' == RemoveNamed(entries, "key")
        else
          failure' == Some(snapshot[i].name) && log' == log && entries' == entries
    ensures LoopState(snapshot, i + 1, methods, base, log', failure', entries')
  {
    var done := Visited(snapshot[..i]);
    VisitedSnoc(snapshot, i);
    LookupSnapshot(snapshot, i, i > 0);
    InvocationsSnoc(done, snapshot[i], methods);
    if i > 0 {
      RemoveNamedTwice(snapshot, "key");
    }
    if i > 0 && snapshot[i].name == "key" {
      assert done + [] == done;
    }
  }

  /**
   * The `for...in` loop of src/index.js:54-57 over the caller's map `extra`,
   * calling methods on `target`.
   */
  method ApplyMethodMap(target: QueryTarget, extra: ExtraMap) returns (failure: Option<string>)
    requires extra.Valid()
    modifies target, extra
    ensures extra.Valid()
    ensures var run := Invocations(Visited(old(extra.entries)), target.methods);
      target.log == old(target.log) + run.ops && failure == run.failure
    ensures extra.entries == ExtraAfter(old(extra.entries), target.methods)
  {
    var snapshot := extra.entries;  // for...in fixes the key list when it starts
    ghost var base := target.log;
    failure := None;
    var i := 0;
    assert snapshot[..0] == [];
    while i < |snapshot| && failure.None?
      invariant DistinctNames(snapshot) && extra.Valid()
      invariant LoopState(snapshot, i, target.methods, base, target.log, failure, extra.entries)
    {
      ghost var log, entries := target.log, extra.entries;
      failure := VisitKey(target, extra, snapshot[i].name);
      LoopStep(snapshot, i, target.methods, base, log, entries, target.log, failure, extra.entries);
      i := i + 1;
    }
    LoopExit(snapshot, i, target.methods);
  }
}
