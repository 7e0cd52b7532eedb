/**
  The insertion-ordered map (`IndexMap`) behind the `unpaired` and `paired` device lists.

  It is kept as the sequence of its keys, in insertion order, beside a map from each key to its
  value. `Valid` is the representation invariant: every key occurs once in the sequence, and the
  sequence holds exactly the keys of the map.
*/
module IndexMaps {
  import opened Options

  /** No key occurs twice in `keys`. */
  predicate Distinct<K(==)>(keys: seq<K>) {
    forall i, j :: 0 <= i < j < |keys| ==> keys[i] != keys[j]
  }

  datatype IndexMap<K(==, !new), V> = IndexMap(keys: seq<K>, values: map<K, V>) {
    ghost predicate Valid() {
      Distinct(keys) && forall k :: k in values <==> k in keys
    }

    /** The number of entries (`len`). */
    function Len(): nat {
      |keys|
    }

    /** The value stored under `k`, if any (`get`). */
    function Get(k: K): Option<V> {
      if k in values then Some(values[k]) else None
    }
  }

  /** The empty map; also what `clear` leaves behind. */
  function Empty<K(==, !new), V>(): (m: IndexMap<K, V>)
    ensures m.Valid() && m.Len() == 0
    ensures forall k :: m.Get(k) == None
  {
    IndexMap([], map[])
  }

  /**
    `insert`: a key already present keeps its position and gets the new value; a new key is
    appended at the end. Every other key keeps its value.
  */
  function Insert<K(==, !new), V>(m: IndexMap<K, V>, k: K, v: V): (r: IndexMap<K, V>)
    ensures m.Valid() ==> r.Valid()
    ensures r.Get(k) == Some(v)
    ensures forall k' :: k' != k ==> r.Get(k') == m.Get(k')
    ensures k in m.values ==> r.keys == m.keys
    ensures k !in m.values ==> r.keys == m.keys + [k]
  {
    IndexMap(if k in m.values then m.keys else m.keys + [k], m.values[k := v])
  }

  /** `entry(k).and_modify(f)`: applies `f` to the value under `k` in place; no-op when `k` is absent. */
  function AndModify<K(==, !new), V>(m: IndexMap<K, V>, k: K, f: V -> V): (r: IndexMap<K, V>)
    ensures m.Valid() ==> r.Valid()
    ensures r.keys == m.keys
    ensures r.Get(k) == (if k in m.values then Some(f(m.values[k])) else None)
    ensures forall k' :: k' != k ==> r.Get(k') == m.Get(k')
  {
    if k in m.values then Insert(m, k, f(m.values[k])) else m
  }

  /** `get_index`: the entry at position `i`, or `None` when `i` is past the end. */
  function GetIndex<K(==, !new), V>(m: IndexMap<K, V>, i: nat): (r: Option<(K, V)>)
    requires m.Valid()
    ensures r.Some? <==> i < m.Len()
    ensures r.Some? ==> r.value.0 == m.keys[i] && m.Get(r.value.0) == Some(r.value.1)
  {
    if i < |m.keys| then Some((m.keys[i], m.values[m.keys[i]])) else None
  }

  /** The position of `k` in `keys`: its first (and, in a valid map, only) occurrence. */
  function IndexOf<K(==)>(keys: seq<K>, k: K): (i: nat)
    requires k in keys
    ensures i < |keys| && keys[i] == k
    ensures forall j :: 0 <= j < i ==> keys[j] != k
  {
    if keys[0] == k then 0 else 1 + IndexOf(keys[1..], k)
  }

  /** Reference definition of "the keys with `k` taken out, the rest in their order". */
  function Without<K(==)>(keys: seq<K>, k: K): seq<K> {
    if keys == [] then []
    else if keys[0] == k then Without(keys[1..], k)
    else [keys[0]] + Without(keys[1..], k)
  }

  /**
    `shift_remove`: takes `k` out and returns its value; the remaining entries keep their relative
    order (later entries shift down by one). Absent `k`: the map is unchanged and `None` is returned.
  */
  function ShiftRemove<K(==, !new), V>(m: IndexMap<K, V>, k: K): (r: (IndexMap<K, V>, Option<V>))
    requires m.Valid()
    ensures r.0.Valid()
    ensures r.1 == m.Get(k)
    ensures r.0.values == m.values - {k}
    ensures r.0.keys == Without(m.keys, k)
  {
    if k in m.values then
      var i := IndexOf(m.keys, k);
      SpliceIsWithout(m.keys, i);
      (IndexMap(m.keys[..i] + m.keys[i + 1..], m.values - {k}), Some(m.values[k]))
    else
      WithoutAbsent(m.keys, k);
      (m, None)
  }

  /** Removing a key that does not occur changes nothing. */
  lemma {:induction false} WithoutAbsent<K>(keys: seq<K>, k: K)
    requires k !in keys
    ensures Without(keys, k) == keys
  {
    if keys != [] {
      WithoutAbsent(keys[1..], k);
    }
  }

  /** In a sequence without duplicates, removing the key at `i` is cutting position `i` out. */
  lemma {:induction false} SpliceIsWithout<K>(keys: seq<K>, i: nat)
    requires Distinct(keys) && i < |keys|
    ensures Without(keys, keys[i]) == keys[..i] + keys[i + 1..]
    ensures Distinct(keys[..i] + keys[i + 1..])
  {
    var rest := keys[..i] + keys[i + 1..];
    forall a, b | 0 <= a < b < |rest| ensures rest[a] != rest[b] {
      var a' := if a < i then a else a + 1;
      var b' := if b < i then b else b + 1;
      assert rest[a] == keys[a'] && rest[b] == keys[b'];
    }
    if i == 0 {
      assert keys[i] !in keys[1..] by {
        forall j | 1 <= j < |keys| ensures keys[j] != keys[0] { }
      }
      WithoutAbsent(keys[1..], keys[0]);
    } else {
      assert keys[1..][i - 1] == keys[i];
      SpliceIsWithout(keys[1..], i - 1);
      assert keys[1..][..i - 1] + keys[1..][i..] == rest[1..];
    }
  }

  /** Round trip: inserting a fresh key and shift-removing it again gives back the original map. */
  lemma RemoveAfterInsert<K(!new), V>(m: IndexMap<K, V>, k: K, v: V)
    requires m.Valid() && k !in m.values
    ensures ShiftRemove(Insert(m, k, v), k) == (m, Some(v))
  {
    var r := ShiftRemove(Insert(m, k, v), k);
    assert k !in m.keys;
    assert Insert(m, k, v).keys == m.keys + [k];
    WithoutAppended(m.keys, k);
    assert r.0.values == m.values;
  }

  /** Shift-removing a key and inserting it again keeps every entry but moves that key to the end. */
  lemma ReinsertMovesLast<K(!new), V>(m: IndexMap<K, V>, k: K)
    requires m.Valid() && k in m.values
    ensures var back := Insert(ShiftRemove(m, k).0, k, m.values[k]);
      back.values == m.values && back.keys == Without(m.keys, k) + [k]
  {
    var rest := ShiftRemove(m, k).0;
    assert k !in rest.values;
    assert rest.values[k := m.values[k]] == m.values;
  }

  /** Removing the last key of a sequence in which it occurs only there gives back the prefix. */
  lemma {:induction false} WithoutAppended<K>(keys: seq<K>, k: K)
    requires k !in keys
    ensures Without(keys + [k], k) == keys
  {
    if keys == [] {
      assert Without([k], k) == Without([], k);
    } else {
      assert (keys + [k])[1..] == keys[1..] + [k];
      WithoutAppended(keys[1..], k);
    }
  }
}
