/**
 * JavaScript values as the resolver sees them: the scalar values that flow
 * through GraphQL arguments and model attributes, the own enumerable
 * properties of a plain object (in `for...in` order), and the small
 * collection functions that `for...in` and `delete` are described with.
 */
module Values {

  datatype Option<+T> = None | Some(value: T)

  /**
   * A GraphQL argument, `extra` argument or model attribute value. `Other`
   * stands for any value the resolver only passes along (a list, an input
   * object, a query-builder callback), told apart by an identity.
   */
  datatype Value = Undefined | Null | Bool(b: bool) | Num(n: int) | Str(s: string) | Other(id: nat)

  /** One own enumerable property of an `args` object. */
  datatype Arg = Arg(key: string, value: Value)

  /** One entry of an `extra` map: a query-builder method name and the list spread into it. */
  datatype MethodCall = MethodCall(name: string, arguments: seq<Value>)

  /** A JavaScript object never holds two properties with the same key. */
  predicate DistinctKeys(args: seq<Arg>) {
    forall i, j :: 0 <= i < j < |args| ==> args[i].key != args[j].key
  }

  predicate DistinctNames(calls: seq<MethodCall>) {
    forall i, j :: 0 <= i < j < |calls| ==> calls[i].name != calls[j].name
  }

  /** `obj[name]` for an object whose properties are `calls`. */
  function Lookup(calls: seq<MethodCall>, name: string): Option<seq<Value>> {
    if calls == [] then None
    else if calls[0].name == name then Some(calls[0].arguments)
    else Lookup(calls[1..], name)
  }

  /** A property that is present reads its own value, since keys are distinct. */
  lemma {:induction false} LookupPresent(calls: seq<MethodCall>, i: nat)
    requires DistinctNames(calls) && i < |calls|
    ensures Lookup(calls, calls[i].name) == Some(calls[i].arguments)
  {
    if i > 0 {
      assert calls[1..][i - 1] == calls[i];
      LookupPresent(calls[1..], i - 1);
    }
  }

  /** A property that is absent reads as missing. */
  lemma {:induction false} LookupAbsent(calls: seq<MethodCall>, name: string)
    requires forall c :: c in calls ==> c.name != name
    ensures Lookup(calls, name) == None
  {
    if calls != [] {
      assert calls[0] in calls;
      assert forall c :: c in calls[1..] ==> c in calls;
      LookupAbsent(calls[1..], name);
    }
  }

  /** The properties left after `delete obj[name]`; the others keep their order. */
  function RemoveNamed(calls: seq<MethodCall>, name: string): (r: seq<MethodCall>)
    ensures |r| <= |calls|
  {
    if calls == [] then []
    else if calls[0].name == name then RemoveNamed(calls[1..], name)
    else [calls[0]] + RemoveNamed(calls[1..], name)
  }

  /** `delete obj[name]` removes exactly the property `name`. */
  lemma {:induction false} RemoveNamedMembers(calls: seq<MethodCall>, name: string)
    ensures forall c :: c in RemoveNamed(calls, name) <==> c in calls && c.name != name
  {
    if calls != [] {
      RemoveNamedMembers(calls[1..], name);
      assert calls == [calls[0]] + calls[1..];
    }
  }

  lemma {:induction false} RemoveNamedDistinct(calls: seq<MethodCall>, name: string)
    requires DistinctNames(calls)
    ensures DistinctNames(RemoveNamed(calls, name))
  {
    if calls != [] {
      RemoveNamedDistinct(calls[1..], name);
      RemoveNamedMembers(calls[1..], name);
      if calls[0].name != name {
        var rest := RemoveNamed(calls[1..], name);
        forall c | c in rest
          ensures c.name != calls[0].name
        {
          var k :| 0 <= k < |calls[1..]| && calls[1..][k] == c;
          assert calls[k + 1] == c;
        }
        var r := [calls[0]] + rest;
        forall i, j | 0 <= i < j < |r|
          ensures r[i].name != r[j].name
        {
          if i == 0 {
            assert r[j] == rest[j - 1] && rest[j - 1] in rest;
          } else {
            assert r[i] == rest[i - 1] && r[j] == rest[j - 1];
          }
        }
      }
    }
  }
}
