/** A JavaScript `Map` as a value: its keys in insertion order plus the table.
    `set` on a present key keeps the key's position, `delete` drops it, and
    iteration (`values()`, `forEach`) follows the key order. */
module OrderedMaps {
  import opened Base

  datatype OMap<K(==,!new), V> = OMap(keys: seq<K>, table: map<K, V>) {

    /** Keys are distinct and are exactly the table's domain. */
    ghost predicate Valid() {
      && Distinct(keys)
      && (forall k :: k in table <==> k in keys)
    }

    predicate Has(k: K) {
      k in table
    }

    function Get(k: K): (r: Option<V>)
      ensures r.Some? <==> k in table
      ensures r.Some? ==> r.value == table[k]
    {
      if k in table then Some(table[k]) else None
    }

    /** `map.set(k, v)`. */
    function Set(k: K, v: V): (r: OMap<K, V>)
      requires Valid()
      ensures r.Valid()
      ensures r.table == table[k := v]
      ensures k in table ==> r.keys == keys
      ensures k !in table ==> r.keys == keys + [k]
    {
      if k in table then OMap(keys, table[k := v]) else OMap(keys + [k], table[k := v])
    }

    /** `map.delete(k)`. */
    function Delete(k: K): (r: OMap<K, V>)
      requires Valid()
      ensures r.Valid()
      ensures r.table == table - {k}
      ensures r.keys == Without(keys, k)
    {
      WithoutDistinct(keys, k);
      OMap(Without(keys, k), table - {k})
    }

    /** `Array.from(map.values())`. */
    function Values(): (r: seq<V>)
      requires Valid()
      ensures |r| == |keys|
      ensures forall i :: 0 <= i < |keys| ==> r[i] == table[keys[i]]
    {
      seq(|keys|, i requires 0 <= i < |keys| => table[keys[i]])
    }

    /** `map.size`. */
    function Size(): (n: nat)
      requires Valid()
      ensures n == |table|
    {
      KeysCount(keys, table);
      |keys|
    }
  }

  function Empty<K(==,!new), V>(): (r: OMap<K, V>)
    ensures r.Valid() && r.keys == [] && r.table == map[]
  {
    OMap([], map[])
  }

  /** No element occurs twice. */
  ghost predicate Distinct<K>(s: seq<K>) {
    forall i, j :: 0 <= i < j < |s| ==> s[i] != s[j]
  }

  /** `s` with every occurrence of `k` dropped, order kept. */
  function Without<K(==,!new)>(s: seq<K>, k: K): (r: seq<K>)
    ensures forall x :: x in r <==> x in s && x != k
    ensures |r| <= |s|
    decreases |s|
  {
    if |s| == 0 then []
    else if s[0] == k then Without(s[1..], k)
    else [s[0]] + Without(s[1..], k)
  }

  lemma {:induction false} WithoutDistinct<K(!new)>(s: seq<K>, k: K)
    requires Distinct(s)
    ensures Distinct(Without(s, k))
    decreases |s|
  {
    if |s| > 0 {
      WithoutDistinct(s[1..], k);
      assert s[0] !in s[1..] by {
        forall j | 0 <= j < |s[1..]| ensures s[1..][j] != s[0] {
          assert s[1..][j] == s[j + 1];
        }
      }
      var r := Without(s, k);
      var t := Without(s[1..], k);
      if s[0] == k {
        assert r == t;
      } else {
        assert r == [s[0]] + t;
        forall i, j | 0 <= i < j < |r| ensures r[i] != r[j] {
          if i == 0 {
            assert r[0] == s[0];
            assert r[j] == t[j - 1];
            assert t[j - 1] in t;
          } else {
            assert r[i] == t[i - 1] && r[j] == t[j - 1];
          }
        }
      }
    }
  }

  /** A distinct key sequence has as many entries as the table it indexes. */
  lemma {:induction false} KeysCount<K(!new), V>(keys: seq<K>, table: map<K, V>)
    requires Distinct(keys)
    requires forall k :: k in table <==> k in keys
    ensures |keys| == |table|
    decreases |keys|
  {
    if |keys| == 0 {
      assert table.Keys == {};
    } else {
      var last := keys[|keys| - 1];
      var rest := keys[..|keys| - 1];
      assert forall k :: k in rest <==> k in keys && k != last;
      KeysCount(rest, table - {last});
    }
  }
}
