/**
 * Python's mutable list, set and dict as heap objects, so that an update
 * made through one reference is seen through every other (a relation
 * collection of an entity, the run cache shared by nested serializers).
 */
module PyCollections {
  import opened Sequences

  class PyList<T(==)> {
    var items: seq<T>

    constructor (xs: seq<T>)
      ensures items == xs
    {
      items := xs;
    }

    /** `l.append(x)` */
    method Append(x: T)
      modifies this
      ensures items == old(items) + [x]
    {
      items := items + [x];
    }

    /** `l.remove(x)`: drops the first occurrence; `found == false` is Python's ValueError. */
    method Remove(x: T) returns (found: bool)
      modifies this
      ensures found == (x in old(items))
      ensures items == RemoveFirst(old(items), x)
    {
      found := x in items;
      items := RemoveFirst(items, x);
    }

    /** `l.clear()` */
    method Clear()
      modifies this
      ensures items == []
    {
      items := [];
    }
  }

  class PySet<T(==)> {
    var elems: set<T>

    constructor (xs: set<T>)
      ensures elems == xs
    {
      elems := xs;
    }

    /** `s.add(x)` */
    method Add(x: T)
      modifies this
      ensures elems == old(elems) + {x}
    {
      elems := elems + {x};
    }

    /** `s.remove(x)`: `found == false` is Python's KeyError. */
    method Remove(x: T) returns (found: bool)
      modifies this
      ensures found == (x in old(elems))
      ensures elems == old(elems) - {x}
    {
      found := x in elems;
      elems := elems - {x};
    }
  }

  class PyDict<K(==), V> {
    var entries: map<K, V>

    constructor (m: map<K, V>)
      ensures entries == m
    {
      entries := m;
    }

    /** `d[k] = v` */
    method Put(k: K, v: V)
      modifies this
      ensures entries == old(entries)[k := v]
    {
      entries := entries[k := v];
    }
  }
}
