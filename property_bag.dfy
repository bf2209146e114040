/**
 * The `Properties` dictionary of a pipeline builder. A root builder owns a
 * plain dictionary; a copied builder owns a copy-on-write dictionary over
 * its parent's. Reads fall through to the parent until the first write or
 * removal, which takes a private copy of the parent's entries at that moment;
 * from then on the bag is independent and its writes stay local.
 */
module Collections {
  import opened Wrappers

  class PropertyBag<V> {
    /** The dictionary read through; `None` for a plain dictionary. */
    const source: Option<PropertyBag<V>>
    /** The private entries, once taken (always present for a plain dictionary). */
    var inner: Option<map<string, V>>
    /** Number of bags read through before reaching a plain dictionary. */
    ghost const depth: nat
    /** This bag and every bag it reads through. */
    ghost const footprint: set<PropertyBag<V>>

    /** The chain of sources is finite and acyclic, and a plain dictionary owns its entries. */
    ghost predicate Valid()
      reads this, footprint
      decreases depth
    {
      && this in footprint
      && (source.None? ==> depth == 0 && footprint == {this} && inner.Some?)
      && (source.Some? ==>
            && source.value.depth < depth
            && source.value in source.value.footprint
            && this !in source.value.footprint
            && footprint == {this} + source.value.footprint
            && source.value.Valid())
    }

    /** The entries a read sees. */
    ghost function Contents(): map<string, V>
      requires Valid()
      reads this, footprint
      decreases depth
    {
      if inner.Some? then inner.value else source.value.Contents()
    }

    /** `new Dictionary<string, object?>(StringComparer.Ordinal)`, holding `entries`. */
    constructor Plain(entries: map<string, V>)
      ensures Valid() && fresh(footprint)
      ensures Contents() == entries
      ensures source.None?
    {
      source := None;
      inner := Some(entries);
      depth := 0;
      footprint := {this};
    }

    /** `new CopyOnWriteDictionary<string, object?>(parent, StringComparer.Ordinal)` */
    constructor CopyOnWrite(parent: PropertyBag<V>)
      requires parent.Valid()
      ensures Valid() && fresh(footprint - parent.footprint)
      ensures footprint == {this} + parent.footprint
      ensures source == Some(parent)
      ensures Contents() == parent.Contents()
    {
      source := Some(parent);
      inner := None;
      depth := parent.depth + 1;
      footprint := {this} + parent.footprint;
    }

    /** Every entry a read sees, as one map. */
    method Entries() returns (m: map<string, V>)
      requires Valid()
      ensures m == Contents()
      decreases depth
    {
      if inner.Some? {
        m := inner.value;
      } else {
        m := source.value.Entries();
      }
    }

    /** `TryGetValue(key, out value)`, with `None` for an absent key. */
    method TryGetValue(key: string) returns (r: Option<V>)
      requires Valid()
      ensures r.Some? <==> key in Contents()
      ensures r.Some? ==> r.value == Contents()[key]
    {
      var m := Entries();
      r := if key in m then Some(m[key]) else None;
    }

    /** Takes the private copy if there is none yet. */
    method Detach()
      requires Valid()
      modifies this`inner
      ensures Valid() && inner.Some?
      ensures Contents() == old(Contents())
    {
      if inner.None? {
        var m := source.value.Entries();
        inner := Some(m);
      }
    }

    /** `this[key] = value`: only this bag changes. */
    method Set(key: string, value: V)
      requires Valid()
      modifies this`inner
      ensures Valid() && inner.Some?
      ensures Contents() == old(Contents())[key := value]
    {
      Detach();
      inner := Some(inner.value[key := value]);
    }

    /** `Remove(key, out value)`: the removed entry, if there was one; only this bag changes. */
    method Remove(key: string) returns (removed: Option<V>)
      requires Valid()
      modifies this`inner
      ensures Valid() && inner.Some?
      ensures Contents() == old(Contents()) - {key}
      ensures removed.Some? <==> key in old(Contents())
      ensures removed.Some? ==> removed.value == old(Contents())[key]
    {
      Detach();
      var m := inner.value;
      removed := if key in m then Some(m[key]) else None;
      inner := Some(m - {key});
    }
  }
}
