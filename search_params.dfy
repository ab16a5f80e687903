/**
 * `URLSearchParams` as an ordered list of key/value pairs, with the
 * `set`, `get` and `toString` operations the dashboard uses.
 * Percent-encoding is not modelled: `toString` joins `key=value` pairs with '&'.
 */
module SearchParams {
  import opened Wrappers
  import opened Text

  /** Pairs of a key, drawn from the caller's set of parameter names, and a value. */
  type Query<K> = seq<(K, string)>

  /** The keys in order, one per pair. */
  function Keys<K(==,!new)>(q: Query<K>): (ks: seq<K>)
    ensures |ks| == |q|
    ensures forall i :: 0 <= i < |q| ==> ks[i] == q[i].0
  {
    if q == [] then [] else [q[0].0] + Keys(q[1..])
  }

  /** No key occurs twice: the first key does not recur, and neither does any later one. */
  predicate DistinctKeys<K(==,!new)>(q: Query<K>) {
    q == [] || (!HasKey(q[1..], q[0].0) && DistinctKeys(q[1..]))
  }

  /** Some pair has key `k`. */
  predicate HasKey<K(==,!new)>(q: Query<K>, k: K) {
    q != [] && (q[0].0 == k || HasKey(q[1..], k))
  }

  /** `HasKey` by position: some pair of the query has key `k`. */
  lemma {:induction false} HasKeyAt<K(!new)>(q: Query<K>, k: K)
    ensures HasKey(q, k) <==> exists i :: 0 <= i < |q| && q[i].0 == k
  {
    if q != [] {
      HasKeyAt(q[1..], k);
      if exists i :: 0 <= i < |q[1..]| && q[1..][i].0 == k {
        var i :| 0 <= i < |q[1..]| && q[1..][i].0 == k;
        assert q[i + 1] == q[1..][i];
      }
      if exists i :: 0 <= i < |q| && q[i].0 == k {
        var i :| 0 <= i < |q| && q[i].0 == k;
        if i > 0 { assert q[1..][i - 1] == q[i]; }
      }
    }
  }

  /** `DistinctKeys` by position: the pairs at two different positions have different keys. */
  lemma {:induction false} DistinctKeysAt<K(!new)>(q: Query<K>)
    ensures DistinctKeys(q) <==> forall i, j :: 0 <= i < j < |q| ==> q[i].0 != q[j].0
  {
    if q != [] {
      DistinctKeysAt(q[1..]);
      HasKeyAt(q[1..], q[0].0);
      if DistinctKeys(q) {
        forall i, j | 0 <= i < j < |q| ensures q[i].0 != q[j].0 {
          assert q[j] == q[1..][j - 1];
          if i > 0 { assert q[i] == q[1..][i - 1]; }
        }
      }
      if forall i, j :: 0 <= i < j < |q| ==> q[i].0 != q[j].0 {
        forall i, j | 0 <= i < j < |q[1..]| ensures q[1..][i].0 != q[1..][j].0 {
          assert q[1..][i] == q[i + 1] && q[1..][j] == q[j + 1];
        }
        forall i | 0 <= i < |q[1..]| ensures q[1..][i].0 != q[0].0 {
          assert q[1..][i] == q[i + 1];
        }
      }
    }
  }

  /** `get`: the value of the first pair with key `k`. */
  function Get<K(==,!new)>(q: Query<K>, k: K): (r: Option<string>)
    ensures r.None? <==> !HasKey(q, k)
  {
    if q == [] then None
    else if q[0].0 == k then Some(q[0].1)
    else Get(q[1..], k)
  }

  /** The pairs without key `k`, in order. */
  function RemoveKey<K(==,!new)>(q: Query<K>, k: K): (r: Query<K>)
    ensures !HasKey(r, k)
    ensures forall k' :: k' != k ==> Get(r, k') == Get(q, k')
    ensures DistinctKeys(q) ==> DistinctKeys(r)
    ensures forall p :: p in r ==> p in q
  {
    if q == [] then []
    else
      var rest := RemoveKey(q[1..], k);
      if q[0].0 == k then rest
      else
        var r := [q[0]] + rest;
        assert r[1..] == rest;
        assert Get(rest, q[0].0) == Get(q[1..], q[0].0);
        r
  }

  /** Replaces the value of the first pair with key `k` and drops the later ones. */
  function ReplaceFirst<K(==,!new)>(q: Query<K>, k: K, v: string): (r: Query<K>)
    requires HasKey(q, k)
    ensures Get(r, k) == Some(v)
    ensures forall k' :: k' != k ==> Get(r, k') == Get(q, k')
  {
    if q[0].0 == k then [(k, v)] + RemoveKey(q[1..], k)
    else
      var rest := ReplaceFirst(q[1..], k, v);
      var r := [q[0]] + rest;
      assert r[1..] == rest;
      r
  }

  /**
   * `set(k, v)`: if `k` is present, the first pair with that key takes the
   * value in place and the other pairs with that key are removed;
   * otherwise the pair is appended.
   */
  function Set<K(==,!new)>(q: Query<K>, k: K, v: string): (r: Query<K>)
    ensures Get(r, k) == Some(v)
    ensures forall k' :: k' != k ==> Get(r, k') == Get(q, k')
    ensures !HasKey(q, k) ==> r == q + [(k, v)]
    ensures DistinctKeys(q) ==> DistinctKeys(r)
    ensures DistinctKeys(q) && HasKey(q, k) ==> Keys(r) == Keys(q)
  {
    if HasKey(q, k) then
      var r := ReplaceFirst(q, k, v);
      assert DistinctKeys(q) ==> DistinctKeys(r) && Keys(r) == Keys(q) by {
        if DistinctKeys(q) { ReplaceFirstKeepsDistinct(q, k, v); }
      }
      r
    else
      var r := q + [(k, v)];
      GetAppend(q, k, v);
      assert DistinctKeys(q) ==> DistinctKeys(r) by {
        if DistinctKeys(q) {
          HasKeyAt(q, k);
          DistinctKeysAt(q);
          DistinctKeysAt(r);
          forall i, j | 0 <= i < j < |r| ensures r[i].0 != r[j].0 {
            assert r[i] == q[i];
            if j < |q| { assert r[j] == q[j]; }
          }
        }
      }
      r
  }

  /** Appending a pair with a new key does not change any other lookup. */
  lemma {:induction false} GetAppend<K(!new)>(q: Query<K>, k: K, v: string)
    requires !HasKey(q, k)
    ensures Get(q + [(k, v)], k) == Some(v)
    ensures forall k' :: k' != k ==> Get(q + [(k, v)], k') == Get(q, k')
  {
    if q != [] {
      assert (q + [(k, v)])[1..] == q[1..] + [(k, v)];
      GetAppend(q[1..], k, v);
    }
  }

  lemma {:induction false} ReplaceFirstKeepsDistinct<K(!new)>(q: Query<K>, k: K, v: string)
    requires HasKey(q, k) && DistinctKeys(q)
    ensures DistinctKeys(ReplaceFirst(q, k, v))
    ensures Keys(ReplaceFirst(q, k, v)) == Keys(q)
  {
    var r := ReplaceFirst(q, k, v);
    if q[0].0 == k {
      RemoveKeyAbsent(q[1..], k);
      assert r[1..] == q[1..];
    } else {
      ReplaceFirstKeepsDistinct(q[1..], k, v);
      var rest := ReplaceFirst(q[1..], k, v);
      assert r[1..] == rest;
      assert Get(rest, q[0].0) == Get(q[1..], q[0].0);
    }
  }

  /** Removing a key that is absent changes nothing. */
  lemma {:induction false} RemoveKeyAbsent<K(!new)>(q: Query<K>, k: K)
    requires !HasKey(q, k)
    ensures RemoveKey(q, k) == q
  {
    if q != [] {
      RemoveKeyAbsent(q[1..], k);
      assert q == [q[0]] + q[1..];
    }
  }

  /** `toString()`: the pairs as `name=value`, joined with '&'. */
  function ToString<K(==,!new)>(q: Query<K>, name: K -> string): string {
    Join(seq(|q|, i requires 0 <= i < |q| => name(q[i].0) + "=" + q[i].1), '&')
  }
}
