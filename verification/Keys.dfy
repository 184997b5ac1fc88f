/** Unique indexes: a key that at most one row of a table holds, and the queries that use it. */
module Keys {
  import opened Base

  /** Some row holds the key. */
  ghost predicate Has<V, K>(rows: map<Id, V>, key: V -> Option<K>, k: K) {
    exists id {:trigger key(rows[id])} :: id in rows && key(rows[id]) == Some(k)
  }

  /** The row that holds the key, if any. */
  ghost function Lookup<V, K>(rows: map<Id, V>, key: V -> Option<K>, k: K): (found: Option<Id>)
    ensures found.Some? ==> found.value in rows && key(rows[found.value]) == Some(k)
    ensures found.Some? <==> Has(rows, key, k)
  {
    if Has(rows, key, k) then
      var id :| id in rows && key(rows[id]) == Some(k);
      Some(id)
    else
      None
  }

  /** No two rows hold the same key; a row without a key is not constrained. */
  ghost predicate Unique<V, K>(rows: map<Id, V>, key: V -> Option<K>) {
    forall a, b {:trigger key(rows[a]), key(rows[b])} ::
      a in rows && b in rows && key(rows[a]).Some? && key(rows[a]) == key(rows[b]) ==> a == b
  }

  /** With a unique key, a query finds the row that holds it. */
  lemma LookupFinds<V, K>(rows: map<Id, V>, key: V -> Option<K>, id: Id)
    requires Unique(rows, key) && id in rows && key(rows[id]).Some?
    ensures Lookup(rows, key, key(rows[id]).value) == Some(id)
  {
  }

  lemma HasKept<V, K>(rows: map<Id, V>, rows': map<Id, V>, key: V -> Option<K>, k: K)
    requires Has(rows, key, k)
    requires forall id :: id in rows && key(rows[id]) == Some(k) ==> id in rows' && key(rows'[id]) == Some(k)
    ensures Has(rows', key, k)
  {
    var id :| id in rows && key(rows[id]) == Some(k);
    assert key(rows'[id]) == Some(k);
  }

  lemma UniqueWrite<V, K>(rows: map<Id, V>, key: V -> Option<K>, id: Id, row: V)
    requires Unique(rows, key)
    requires key(row).None? || (id in rows && key(rows[id]) == key(row)) || !Has(rows, key, key(row).value)
    ensures Unique(rows[id := row], key)
  {
  }

  /** Removing rows, or their keys, keeps a key unique. */
  lemma UniqueShrink<V, K>(rows: map<Id, V>, rest: map<Id, V>, key: V -> Option<K>)
    requires Unique(rows, key)
    requires forall id :: id in rest ==> id in rows && (key(rest[id]) == key(rows[id]) || key(rest[id]).None?)
    ensures Unique(rest, key)
  {
    forall a, b | a in rest && b in rest && key(rest[a]).Some? && key(rest[a]) == key(rest[b]) ensures a == b {
      assert key(rows[a]) == key(rest[a]) && key(rows[b]) == key(rest[b]);
    }
  }
}
