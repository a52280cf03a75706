/**
 * Insertion-ordered maps as sequences of key/value pairs, the way
 * serde_yaml's `Mapping` (an `IndexMap`) iterates: "the first key" is the
 * key of the first pair.
 */
module OrderedMap {
  import opened Wrappers

  function Keys<K, V>(m: seq<(K, V)>): (ks: seq<K>)
    ensures |ks| == |m|
    ensures forall i :: 0 <= i < |m| ==> ks[i] == m[i].0
  {
    seq(|m|, i requires 0 <= i < |m| => m[i].0)
  }

  /** No key occurs twice. */
  ghost predicate UniqueKeys<K, V>(m: seq<(K, V)>) {
    forall i, j :: 0 <= i < j < |m| ==> m[i].0 != m[j].0
  }

  /** `get`: the value stored under the first pair with key `k`. */
  function Get<K(==), V>(m: seq<(K, V)>, k: K): (r: Option<V>)
    ensures r.None? <==> k !in Keys(m)
  {
    if m == [] then None
    else if m[0].0 == k then Some(m[0].1)
    else
      assert Keys(m) == [m[0].0] + Keys(m[1..]);
      Get(m[1..], k)
  }

  /**
   * `insert`: an existing key keeps its place and takes the new value; a
   * new key goes at the end.
   */
  function Insert<K(==), V>(m: seq<(K, V)>, k: K, v: V): (r: seq<(K, V)>)
    ensures Keys(r) == if k in Keys(m) then Keys(m) else Keys(m) + [k]
  {
    if m == [] then [(k, v)]
    else if m[0].0 == k then
      KeysConcat([m[0]], m[1..]);
      KeysConcat([(k, v)], m[1..]);
      [(k, v)] + m[1..]
    else
      var rest := Insert(m[1..], k, v);
      KeysConcat([m[0]], m[1..]);
      KeysConcat([m[0]], rest);
      [m[0]] + rest
  }

  lemma KeysConcat<K, V>(a: seq<(K, V)>, b: seq<(K, V)>)
    ensures Keys(a + b) == Keys(a) + Keys(b)
  {
  }

  lemma KeysSnoc<K, V>(m: seq<(K, V)>)
    requires m != []
    ensures Keys(m) == Keys(m[..|m| - 1]) + [m[|m| - 1].0]
  {
    KeysConcat(m[..|m| - 1], [m[|m| - 1]]);
    assert m == m[..|m| - 1] + [m[|m| - 1]];
  }

  /** Inserting a new key appends its pair. */
  lemma {:induction false} InsertNewKey<K, V>(m: seq<(K, V)>, k: K, v: V)
    requires k !in Keys(m)
    ensures Insert(m, k, v) == m + [(k, v)]
  {
    if m != [] {
      assert k != m[0].0 && Keys(m)[0] == m[0].0;
      assert k !in Keys(m[1..]) by {
        forall i | 0 <= i < |m| - 1 ensures Keys(m[1..])[i] != k {
          assert Keys(m[1..])[i] == Keys(m)[i + 1];
        }
      }
      InsertNewKey(m[1..], k, v);
      assert [m[0]] + (m[1..] + [(k, v)]) == m + [(k, v)];
    }
  }

  lemma {:induction false} GetInsert<K, V>(m: seq<(K, V)>, k: K, v: V, k': K)
    ensures Get(Insert(m, k, v), k') == if k' == k then Some(v) else Get(m, k')
  {
    if m != [] && m[0].0 != k {
      GetInsert(m[1..], k, v, k');
    }
  }

  lemma {:induction false} InsertKeepsUnique<K, V>(m: seq<(K, V)>, k: K, v: V)
    requires UniqueKeys(m)
    ensures UniqueKeys(Insert(m, k, v))
  {
    var r := Insert(m, k, v);
    forall i, j | 0 <= i < j < |r| ensures r[i].0 != r[j].0 {
      assert Keys(r)[i] == r[i].0 && Keys(r)[j] == r[j].0;
      if k !in Keys(m) && j == |m| {
        assert Keys(m)[i] == m[i].0;
      } else {
        assert Keys(m)[i] == m[i].0 && Keys(m)[j] == m[j].0;
      }
    }
  }

  /** Looking a key up in a sequence with one more pair at the end. */
  lemma {:induction false} GetSnoc<K, V>(m: seq<(K, V)>, p: (K, V), k: K)
    ensures Get(m + [p], k) == if k in Keys(m) then Get(m, k) else if p.0 == k then Some(p.1) else None
  {
    if m != [] {
      assert (m + [p])[1..] == m[1..] + [p];
      assert Keys(m) == [m[0].0] + Keys(m[1..]);
      GetSnoc(m[1..], p, k);
    }
  }
}
