/** A document collection: documents keyed by id, listed in the store's natural order. */
module Tables {

  import opened Wrappers
  import opened Seqs

  /** The predicate "is not k", used to drop one key from the order. */
  function Other<K(==)>(k: K): K -> bool
  {
    x => x != k
  }

  /** The predicate "has a row that keep accepts". */
  function KeptBy<K(==), V>(rows: map<K, V>, keep: V -> bool): K -> bool
  {
    k => k in rows && keep(rows[k])
  }

  datatype Table<K(==), V> = Table(keys: seq<K>, rows: map<K, V>) {

    /** Every stored document appears exactly once in the natural order. */
    ghost predicate Valid()
    {
      Distinct(keys) && rows.Keys == Elems(keys)
    }

    /** `findById`: the document, or nothing. */
    function Get(k: K): (r: Option<V>)
      ensures r.Some? <==> k in rows
      ensures r.Some? ==> r.value == rows[k]
    {
      if k in rows then Some(rows[k]) else None
    }

    /** `save` as an upsert: a stored document is replaced where it stands, a new one goes last. */
    function Put(k: K, v: V): (t: Table<K, V>)
      requires Valid()
      ensures t.Valid()
      ensures t.rows == rows[k := v]
      ensures k in rows ==> t.keys == keys
      ensures k !in rows ==> t.keys == keys + [k]
    {
      if k in rows then
        Table(keys, rows[k := v])
      else
        DistinctCons(k, []);
        assert Distinct(keys + [k]) by {
          forall i, j | 0 <= i < j < |keys + [k]|
            ensures (keys + [k])[i] != (keys + [k])[j]
          {
            assert (keys + [k])[i] == keys[i];
            if j == |keys| {
              assert keys[i] in rows;
            }
          }
        }
        Table(keys + [k], rows[k := v])
    }

    /** `findByIdAndRemove` without the returned copy: the document is gone, the others keep their order. */
    function Remove(k: K): (t: Table<K, V>)
      requires Valid()
      ensures t.Valid()
      ensures t.rows == rows - {k}
      ensures t.keys == Filter(keys, Other(k))
    {
      FilterDistinct(keys, Other(k));
      Table(Filter(keys, Other(k)), rows - {k})
    }

    /** `updateMany`: f applied to every document, order unchanged. */
    function MapRows(f: V -> V): (t: Table<K, V>)
      requires Valid()
      ensures t.Valid()
      ensures t.keys == keys && t.rows.Keys == rows.Keys
      ensures forall k :: k in rows ==> t.rows[k] == f(rows[k])
    {
      Table(keys, map k | k in rows :: f(rows[k]))
    }

    /** The complement of `deleteMany`: the documents keep accepts stay, unchanged and in order. */
    function Restrict(keep: V -> bool): (t: Table<K, V>)
      requires Valid()
      ensures t.Valid()
      ensures forall k :: k in t.rows ==> k in rows && keep(rows[k])
      ensures forall k :: k in rows && keep(rows[k]) ==> k in t.rows
      ensures forall k :: k in t.rows ==> t.rows[k] == rows[k]
      ensures t.keys == Filter(keys, KeptBy(rows, keep))
    {
      FilterDistinct(keys, KeptBy(rows, keep));
      Table(Filter(keys, KeptBy(rows, keep)), map k | k in rows && keep(rows[k]) :: rows[k])
    }
  }

  /** Removing a document and saving it again restores every document; only its place in the order moves. */
  lemma RemovePutRestores<K, V>(t: Table<K, V>, k: K)
    requires t.Valid() && k in t.rows
    ensures t.Remove(k).Put(k, t.rows[k]).rows == t.rows
    ensures t.Remove(k).Put(k, t.rows[k]).keys == Filter(t.keys, Other(k)) + [k]
  {
    assert (t.rows - {k})[k := t.rows[k]] == t.rows;
  }
}
