/** The hybrid storage backend: a local store that may lose anything at any time in front of an
    authoritative remote store, written through and read through. */
module HybridStore {
  import opened Options

  function Lookup<K, V>(m: map<K, V>, key: K): Option<V> {
    if key in m then Some(m[key]) else None
  }

  /** `m` after writing the pairs from first to last. */
  function Written<K, V>(m: map<K, V>, pairs: seq<(K, V)>): map<K, V> {
    if pairs == [] then m
    else Written(m, pairs[..|pairs| - 1])[pairs[|pairs| - 1].0 := pairs[|pairs| - 1].1]
  }

  /** The last value written to a key stays, and keys that are not written keep what they had. */
  lemma {:induction false} LastWriteStays<K, V>(m: map<K, V>, pairs: seq<(K, V)>)
    ensures forall i {:trigger pairs[i].0} ::
              0 <= i < |pairs| && (forall j :: i < j < |pairs| ==> pairs[j].0 != pairs[i].0) ==>
              pairs[i].0 in Written(m, pairs) && Written(m, pairs)[pairs[i].0] == pairs[i].1
    ensures forall key :: (forall i :: 0 <= i < |pairs| ==> pairs[i].0 != key) ==>
              Lookup(Written(m, pairs), key) == Lookup(m, key)
    decreases |pairs|
  {
    if pairs == [] {
    } else {
      LastWriteStays(m, pairs[..|pairs| - 1]);
    }
  }

  class HybridBackend<K(==), V> {
    var local: map<K, V>
    var remote: map<K, V>

    /** Whatever the local store still has, it has from the remote store. */
    ghost predicate Valid()
      reads this
    {
      forall key :: key in local ==> key in remote && local[key] == remote[key]
    }

    constructor (remote: map<K, V>)
      ensures Valid() && this.remote == remote && local == map[]
    {
      this.local, this.remote := map[], remote;
    }

    method Contains(key: K) returns (r: bool)
      requires Valid()
      ensures r == (key in remote)
    {
      r := key in local || key in remote;
    }

    /** Storing may evict any local entries, the new one included. */
    method PutLocal(key: K, value: V, lost: set<K>)
      modifies this`local
      ensures local == old(local)[key := value] - lost
    {
      local := local[key := value] - lost;
    }

    method Put(key: K, value: V, lost: set<K>)
      requires Valid()
      modifies this
      ensures Valid() && remote == old(remote)[key := value]
    {
      PutLocal(key, value, lost);
      remote := remote[key := value];
    }

    method BatchedPut(pairs: seq<(K, V)>, lost: nat -> set<K>) returns (count: nat)
      requires Valid()
      modifies this
      ensures Valid() && remote == Written(old(remote), pairs) && count == |pairs|
    {
      count := 0;
      for i := 0 to |pairs|
        invariant Valid() && remote == Written(old(remote), pairs[..i]) && count == i
      {
        assert pairs[..i + 1][..i] == pairs[..i];
        Put(pairs[i].0, pairs[i].1, lost(i));
        count := count + 1;
      }
      assert pairs[..|pairs|] == pairs;
    }

    /** A read returns what the remote store alone would return, and changes nothing there. */
    method Get(key: K, lost: set<K>) returns (value: Option<V>)
      requires Valid()
      modifies this`local
      ensures Valid() && value == Lookup(remote, key)
    {
      value := Lookup(local, key);
      if value.None? {
        value := Lookup(remote, key);
        if value.Some? {
          PutLocal(key, value.value, lost);
        }
      }
    }

    /** First the local reads, remembering what to ask the remote store for. */
    method LocalReads(keys: seq<K>) returns (values: seq<Option<V>>, queries: seq<K>, indexes: seq<nat>)
      requires Valid()
      ensures |values| == |keys| && |queries| == |indexes|
      ensures forall i :: 0 <= i < |keys| ==> values[i] == Lookup(local, keys[i])
      ensures forall q :: 0 <= q < |indexes| ==> indexes[q] < |keys| && queries[q] == keys[indexes[q]]
      ensures forall i :: 0 <= i < |keys| && values[i].None? ==> i in indexes
    {
      values, queries, indexes := [], [], [];
      for k := 0 to |keys|
        invariant |values| == k && |queries| == |indexes|
        invariant forall i :: 0 <= i < k ==> values[i] == Lookup(local, keys[i])
        invariant forall q :: 0 <= q < |indexes| ==> indexes[q] < k && queries[q] == keys[indexes[q]]
        invariant forall i :: 0 <= i < k && values[i].None? ==> i in indexes
      {
        var value := Lookup(local, keys[k]);
        values := values + [value];
        if value.None? {
          queries, indexes := queries + [keys[k]], indexes + [k];
        }
      }
    }

    /** The batched read answers every position as the remote store alone would. */
    method BatchedGet(keys: seq<K>, lost: nat -> set<K>) returns (values: seq<Option<V>>)
      requires Valid()
      modifies this`local
      ensures Valid() && |values| == |keys|
      ensures forall i :: 0 <= i < |keys| ==> values[i] == Lookup(remote, keys[i])
    {
      var queries, indexes;
      values, queries, indexes := LocalReads(keys);
      var results := seq(|queries|, q requires 0 <= q < |queries| reads this => Lookup(remote, queries[q]));
      for q := 0 to |queries|
        invariant Valid() && |values| == |keys|
        invariant forall i :: 0 <= i < |keys| ==>
                    values[i] == Lookup(remote, keys[i]) || (values[i] == None && i in indexes[q..])
      {
        if results[q].Some? {
          PutLocal(queries[q], results[q].value, lost(q));
          values := values[indexes[q] := results[q]];
        }
      }
    }

    /** Entries disappear: `lost` from the local store, `gone` from both. */
    method Evict(lost: set<K>, gone: set<K>)
      requires Valid()
      modifies this
      ensures Valid() && remote == old(remote) - gone && local == old(local) - (lost + gone)
    {
      local, remote := local - (lost + gone), remote - gone;
    }
  }
}
