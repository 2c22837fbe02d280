/**
 * `exposeAttributes` (src/index.js:13-25): what the resolver's promise
 * resolves with. Bookshelf keeps column values in `attributes`, read with
 * `get()`; GraphQL reads plain properties. So each fetched record gets its
 * shallow serialization (the attributes, without loaded relations) copied
 * onto itself with `Object.assign`, in place.
 */
module Exposure {
  import opened Values

  /**
   * `Object.assign(target, source)` on own enumerable properties: every
   * property of `source` is written, overwriting, and the rest of `target`
   * stays as it was.
   */
  function Assign(target: map<string, Value>, source: map<string, Value>): (r: map<string, Value>)
    ensures r.Keys == target.Keys + source.Keys
    ensures forall k :: k in source ==> r[k] == source[k]
    ensures forall k :: k in target && k !in source ==> r[k] == target[k]
  {
    target + source
  }

  /** Copying the same properties a second time changes nothing. */
  lemma AssignIdempotent(target: map<string, Value>, source: map<string, Value>)
    ensures Assign(Assign(target, source), source) == Assign(target, source)
  {
  }

  /** A fetched Bookshelf model. */
  class Record {
    /** The record's own enumerable properties, which GraphQL reads directly. */
    var props: map<string, Value>
    /** `model.attributes`: the column values. */
    const attributes: map<string, Value>
    /** The names of the relations loaded on the record. */
    const relations: set<string>

    constructor (props: map<string, Value>, attributes: map<string, Value>, relations: set<string>)
      ensures this.props == props && this.attributes == attributes && this.relations == relations
    {
      this.props := props;
      this.attributes := attributes;
      this.relations := relations;
    }

    /** `serialize({ shallow: true })`: the attributes, relations left out. */
    function SerializeShallow(): map<string, Value> {
      attributes
    }

    /**
     * `exposeModelAttributes(item)`: assigns the shallow serialization onto
     * the record and returns it. A loaded relation that is not also an
     * attribute is neither added nor changed.
     */
    method ExposeModelAttributes() returns (self: Record)
      modifies this
      ensures self == this
      ensures props == Assign(old(props), SerializeShallow())
      ensures forall k :: k in relations && k !in attributes ==>
        (k in props <==> k in old(props)) && (k in old(props) ==> props[k] == old(props)[k])
    {
      props := Assign(props, SerializeShallow());
      self := this;
    }
  }

  /**
   * What `fetch()` / `fetchAll()` resolve with: nothing (`null`), something
   * with an own `length` (a collection), or a single model.
   */
  datatype Fetched = Nothing | Many(items: seq<Record>) | One(item: Record)

  function Members(collection: Fetched): set<Record> {
    match collection
    case Nothing => {}
    case Many(items) => set rec | rec in items
    case One(item) => {item}
  }

  /**
   * `exposeAttributes(collection)`: returns its argument (a collection as a
   * list of the same records, in the same order), and every record in it,
   * however often it occurs, ends up with its attributes assigned on once.
   */
  method ExposeAttributes(collection: Fetched) returns (r: Fetched)
    modifies Members(collection)
    ensures r == collection
    ensures forall rec :: rec in Members(collection) ==>
      rec.props == Assign(old(rec.props), rec.attributes)
  {
    match collection {
      case Nothing =>
        r := Nothing;
      case One(item) =>
        var exposed := item.ExposeModelAttributes();
        r := One(exposed);
      case Many(items) =>
        var mapped: seq<Record> := [];
        var i := 0;
        while i < |items|
          invariant 0 <= i <= |items|
          invariant mapped == items[..i]
          invariant forall rec :: rec in items[..i] ==> rec.props == Assign(old(rec.props), rec.attributes)
          invariant forall rec :: rec in items && rec !in items[..i] ==> rec.props == old(rec.props)
        {
          var rec := items[i];
          AssignIdempotent(old(rec.props), rec.attributes);
          var exposed := rec.ExposeModelAttributes();
          mapped := mapped + [exposed];
          i := i + 1;
          assert items[..i] == items[..i - 1] + [rec];
        }
        assert items[..i] == items;
        r := Many(mapped);
    }
  }
}
