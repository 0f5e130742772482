/** `arrayToMap`: index a sequence by a key, the last element with a given
    key winning. */
module ArrayUtils {

  /** The map `arrayToMap(s, key)` builds: a left-to-right sequence of
      `map.set(key(item), item)` calls. */
  function IndexBy<T, K(==)>(s: seq<T>, key: T -> K): (m: map<K, T>)
    ensures forall i :: 0 <= i < |s| ==> key(s[i]) in m
    ensures forall k :: k in m ==> key(m[k]) == k
    ensures |m| <= |s|
  {
    if s == [] then map[]
    else
      var m := IndexBy(s[..|s| - 1], key);
      assert forall i :: 0 <= i < |s| - 1 ==> s[..|s| - 1][i] == s[i];
      m[key(s[|s| - 1]) := s[|s| - 1]]
  }

  /** The keys of the result are exactly the keys of the elements. */
  lemma {:induction false} IndexByKeys<T, K>(s: seq<T>, key: T -> K, k: K)
    ensures k in IndexBy(s, key) <==> exists i :: 0 <= i < |s| && key(s[i]) == k
  {
    if s != [] {
      var p := s[..|s| - 1];
      IndexByKeys(p, key, k);
      if exists i :: 0 <= i < |p| && key(p[i]) == k {
        var i :| 0 <= i < |p| && key(p[i]) == k;
        assert s[i] == p[i];
      }
    }
  }

  /** Every value of the result is an element of the input. */
  lemma {:induction false} IndexByValues<T, K>(s: seq<T>, key: T -> K, k: K)
    requires k in IndexBy(s, key)
    ensures IndexBy(s, key)[k] in s
  {
    var p := s[..|s| - 1];
    if k != key(s[|s| - 1]) {
      IndexByValues(p, key, k);
    }
  }

  /** For a key that several elements share, the value is the LAST of them. */
  lemma {:induction false} IndexByLastWins<T, K>(s: seq<T>, key: T -> K, i: nat)
    requires i < |s|
    requires forall j :: i < j < |s| ==> key(s[j]) != key(s[i])
    ensures IndexBy(s, key)[key(s[i])] == s[i]
  {
    if i < |s| - 1 {
      var p := s[..|s| - 1];
      assert forall j :: i < j < |p| ==> p[j] == s[j];
      IndexByLastWins(p, key, i);
      assert p[i] == s[i];
    }
  }

  /** Pairwise distinct keys. */
  predicate DistinctKeys<T, K(==)>(s: seq<T>, key: T -> K)
  {
    forall i, j :: 0 <= i < j < |s| ==> key(s[i]) != key(s[j])
  }

  /** With distinct keys nothing is overwritten: the map has one entry per
      element. */
  lemma {:induction false} IndexByDistinctSize<T, K>(s: seq<T>, key: T -> K)
    requires DistinctKeys(s, key)
    ensures |IndexBy(s, key)| == |s|
  {
    if s != [] {
      var p := s[..|s| - 1];
      assert DistinctKeys(p, key) by {
        forall i, j | 0 <= i < j < |p| ensures key(p[i]) != key(p[j]) {
          assert p[i] == s[i] && p[j] == s[j];
        }
      }
      IndexByDistinctSize(p, key);
      IndexByKeys(p, key, key(s[|s| - 1]));
    }
  }

  /** `arrayToMap`, as the source writes it: one pass, overwriting entries in
      place. */
  method ArrayToMap<T, K(==)>(items: seq<T>, key: T -> K) returns (m: map<K, T>)
    ensures m == IndexBy(items, key)
  {
    m := map[];
    for i := 0 to |items|
      invariant m == IndexBy(items[..i], key)
    {
      assert items[..i + 1][..i] == items[..i];
      m := m[key(items[i]) := items[i]];
    }
    assert items[..|items|] == items;
  }
}
