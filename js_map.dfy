/**
 * A JavaScript `Map` as its entry list in insertion order: `set` on a
 * present key replaces the value in place, on a new key appends, and
 * `new Map(entries)` sets the entries one after the other.
 */
module JsMap {
  import opened Wrappers

  type Entries<K, V> = seq<(K, V)>

  /** `map.get(key)`. */
  function Get<K(==), V>(m: Entries<K, V>, key: K): (r: Option<V>)
    ensures r.Some? <==> exists i :: 0 <= i < |m| && m[i].0 == key
  {
    if |m| == 0 then None
    else if m[0].0 == key then Some(m[0].1)
    else Get(m[1..], key)
  }

  /** `map.set(key, value)`. */
  function Set<K(==), V>(m: Entries<K, V>, key: K, value: V): (r: Entries<K, V>)
    ensures |r| == if Get(m, key).Some? then |m| else |m| + 1
  {
    if |m| == 0 then [(key, value)]
    else if m[0].0 == key then [(key, value)] + m[1..]
    else [m[0]] + Set(m[1..], key, value)
  }

  /** `new Map(entries)`. */
  function FromEntries<K(==), V>(entries: Entries<K, V>): Entries<K, V>
  {
    if |entries| == 0 then [] else Set(FromEntries(entries[..|entries| - 1]), entries[|entries| - 1].0, entries[|entries| - 1].1)
  }

  /** Each key appears at most once, as in every list a `Map` produces. */
  ghost predicate DistinctKeys<K, V>(m: Entries<K, V>)
  {
    forall i, j :: 0 <= i < j < |m| ==> m[i].0 != m[j].0
  }

  /** `get` after `set` sees the new value for that key and the old one for every other key. */
  lemma {:induction false} GetAfterSet<K, V>(m: Entries<K, V>, key: K, value: V, other: K)
    ensures Get(Set(m, key, value), other) == if other == key then Some(value) else Get(m, other)
    decreases |m|
  {
    if |m| > 0 && m[0].0 != key {
      GetAfterSet(m[1..], key, value, other);
      assert (([m[0]] + Set(m[1..], key, value))[1..]) == Set(m[1..], key, value);
    } else if |m| > 0 {
      assert ([(key, value)] + m[1..])[1..] == m[1..];
    }
  }

  /** `set` keeps every key in its place and appends only a new key. */
  lemma {:induction false} SetKeyAt<K, V>(m: Entries<K, V>, key: K, value: V, j: nat)
    requires j < |Set(m, key, value)|
    ensures Set(m, key, value)[j].0 == if j < |m| then m[j].0 else key
    decreases |m|
  {
    if |m| > 0 && m[0].0 != key && j > 0 {
      SetKeyAt(m[1..], key, value, j - 1);
    }
  }

  /** `set` keeps the keys distinct. */
  lemma SetKeepsDistinct<K, V>(m: Entries<K, V>, key: K, value: V)
    requires DistinctKeys(m)
    ensures DistinctKeys(Set(m, key, value))
  {
    var r := Set(m, key, value);
    forall i, j | 0 <= i < j < |r|
      ensures r[i].0 != r[j].0
    {
      SetKeyAt(m, key, value, i);
      SetKeyAt(m, key, value, j);
      if j == |m| {
        assert Get(m, key).None?;
        assert m[i].0 != key;
      }
    }
  }

  /** Whatever list it is built from, a `Map` has distinct keys. */
  lemma {:induction false} FromEntriesDistinct<K, V>(entries: Entries<K, V>)
    ensures DistinctKeys(FromEntries(entries))
    decreases |entries|
  {
    if |entries| > 0 {
      var n := |entries| - 1;
      FromEntriesDistinct(entries[..n]);
      SetKeepsDistinct(FromEntries(entries[..n]), entries[n].0, entries[n].1);
    }
  }

  /** Setting every entry of a list with distinct keys into an empty map rebuilds that list, order included. */
  lemma {:induction false} FromDistinctEntries<K, V>(entries: Entries<K, V>)
    requires DistinctKeys(entries)
    ensures FromEntries(entries) == entries
    decreases |entries|
  {
    if |entries| > 0 {
      var n := |entries| - 1;
      var front := entries[..n];
      assert DistinctKeys(front);
      FromDistinctEntries(front);
      AppendNewKey(front, entries[n].0, entries[n].1);
      assert front + [entries[n]] == entries;
    }
  }

  /** `set` of a key that is absent appends the entry. */
  lemma {:induction false} AppendNewKey<K, V>(m: Entries<K, V>, key: K, value: V)
    requires forall i :: 0 <= i < |m| ==> m[i].0 != key
    ensures Set(m, key, value) == m + [(key, value)]
    decreases |m|
  {
    if |m| > 0 {
      AppendNewKey(m[1..], key, value);
      assert [m[0]] + (m[1..] + [(key, value)]) == m + [(key, value)];
    }
  }
}
