/** Python's `dict`: a finite map that also remembers the order in which its
    keys were first inserted. Re-assigning an existing key keeps its place;
    deleting a key and assigning it again moves it to the end. */
module OrderedMaps {

  import opened Wrappers

  datatype OrderedMap<K, V> = OrderedMap(keys: seq<K>, items: map<K, V>)

  ghost predicate NoDuplicates<K>(s: seq<K>) {
    forall i, j :: 0 <= i < j < |s| ==> s[i] != s[j]
  }

  /** The order lists every key of the map exactly once. */
  ghost predicate Valid<K(!new), V>(m: OrderedMap<K, V>) {
    && NoDuplicates(m.keys)
    && (forall k :: k in m.items <==> k in m.keys)
  }

  function Empty<K(!new), V>(): (m: OrderedMap<K, V>)
    ensures Valid(m) && m.keys == [] && m.items == map[]
  {
    OrderedMap([], map[])
  }

  /** Python's `d.get(k)`. */
  function Get<K, V>(m: OrderedMap<K, V>, k: K): (r: Option<V>)
    ensures r.Some? <==> k in m.items
    ensures r.Some? ==> r.value == m.items[k]
  {
    if k in m.items then Some(m.items[k]) else None
  }

  /** Python's `d[k] = v`. */
  function Put<K(!new), V>(m: OrderedMap<K, V>, k: K, v: V): (r: OrderedMap<K, V>)
    requires Valid(m)
    ensures Valid(r)
    ensures r.items == m.items[k := v]
    ensures k in m.items ==> r.keys == m.keys
    ensures k !in m.items ==> r.keys == m.keys + [k]
  {
    if k in m.items then OrderedMap(m.keys, m.items[k := v])
    else OrderedMap(m.keys + [k], m.items[k := v])
  }

  /** Python's `d.pop(k, None)` / `del d[k]` (a no-op on an absent key). */
  function Remove<K(!new), V>(m: OrderedMap<K, V>, k: K): (r: OrderedMap<K, V>)
    requires Valid(m)
    ensures Valid(r)
    ensures r.items == m.items - {k}
    ensures r.keys == Without(m.keys, k)
  {
    WithoutKeepsDistinct(m.keys, k);
    OrderedMap(Without(m.keys, k), m.items - {k})
  }

  /** Python's `list(d.values())`: the values in key order. */
  function Values<K(!new), V>(m: OrderedMap<K, V>): (vs: seq<V>)
    requires Valid(m)
    ensures |vs| == |m.keys|
    ensures forall i :: 0 <= i < |vs| ==> m.keys[i] in m.items && vs[i] == m.items[m.keys[i]]
  {
    seq(|m.keys|, i requires 0 <= i < |m.keys| => m.items[m.keys[i]])
  }

  /** `s` with every occurrence of `k` removed, the rest in order. */
  function Without<K(==,!new)>(s: seq<K>, k: K): (r: seq<K>)
    ensures forall x :: x in r <==> x in s && x != k
    ensures |r| <= |s|
  {
    if s == [] then []
    else if s[0] == k then Without(s[1..], k)
    else [s[0]] + Without(s[1..], k)
  }

  lemma {:induction false} WithoutKeepsDistinct<K(!new)>(s: seq<K>, k: K)
    requires NoDuplicates(s)
    ensures NoDuplicates(Without(s, k))
  {
    if s != [] {
      assert NoDuplicates(s[1..]) by {
        forall i, j | 0 <= i < j < |s[1..]| ensures s[1..][i] != s[1..][j] {
          assert s[1..][i] == s[i + 1] && s[1..][j] == s[j + 1];
        }
      }
      WithoutKeepsDistinct(s[1..], k);
      if s[0] != k {
        assert s[0] !in s[1..] by {
          forall i | 0 <= i < |s[1..]| ensures s[1..][i] != s[0] {
            assert s[1..][i] == s[i + 1];
          }
        }
        var r := [s[0]] + Without(s[1..], k);
        forall i, j | 0 <= i < j < |r| ensures r[i] != r[j] {
          if i == 0 {
            assert r[j] in Without(s[1..], k);
          } else {
            assert r[i] == Without(s[1..], k)[i - 1] && r[j] == Without(s[1..], k)[j - 1];
          }
        }
      }
    }
  }

  /** Removing the first key leaves the rest of the order as it was. */
  lemma RemoveFirst<K(!new), V>(m: OrderedMap<K, V>)
    requires Valid(m) && m.keys != []
    ensures Remove(m, m.keys[0]).keys == m.keys[1..]
  {
    var s := m.keys;
    assert s[0] !in s[1..] by {
      forall i | 0 <= i < |s[1..]| ensures s[1..][i] != s[0] {
        assert s[1..][i] == s[i + 1];
      }
    }
    assert s == [s[0]] + s[1..];
    WithoutAbsent(s[1..], s[0]);
  }

  lemma {:induction false} WithoutAbsent<K(!new)>(s: seq<K>, k: K)
    requires k !in s
    ensures Without(s, k) == s
  {
    if s != [] {
      WithoutAbsent(s[1..], k);
      assert s == [s[0]] + s[1..];
    }
  }
}
