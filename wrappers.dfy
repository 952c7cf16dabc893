/** Plain option and result wrappers, and map helpers, used across the model. */
module Wrappers {

  /** A value that may be absent, as Rust's `Option`. */
  datatype Option<T> = None | Some(value: T)

  /** The outcome of an operation that can fail with a message, as Rust's `Result<T, String>`. */
  datatype Result<T> = Ok(value: T) | Err(message: string)

  /** The value stored under `k`, if any. */
  function Get<K, V>(m: map<K, V>, k: K): (r: Option<V>)
    ensures r.Some? <==> k in m
    ensures r.Some? ==> r.value == m[k]
  {
    if k in m then Some(m[k]) else None
  }

  /** `m` with the entry for `k` set to `v`, or removed when `v` is None. */
  function Put<K(!new), V>(m: map<K, V>, k: K, v: Option<V>): (r: map<K, V>)
    ensures Get(r, k) == v
    ensures r - {k} == m - {k}
  {
    if v.Some? then m[k := v.value] else m - {k}
  }

  /** A map that agrees with `m` outside `k` is `m` with `k`'s entry set to its own. */
  lemma PutDetermined<K(!new), V>(m: map<K, V>, r: map<K, V>, k: K)
    requires r - {k} == m - {k}
    ensures r == Put(m, k, Get(r, k))
  {
    var p := Put(m, k, Get(r, k));
    assert forall x :: x in r <==> x in p by {
      forall x ensures x in r <==> x in p {
        if x != k { assert x in r <==> x in r - {k}; assert x in m <==> x in m - {k}; }
      }
    }
    forall x | x in r ensures r[x] == p[x] {
      if x != k { assert (r - {k})[x] == (m - {k})[x]; }
    }
  }

  /** Setting `k` leaves every other key as it was. */
  lemma PutOther<K(!new), V>(m: map<K, V>, k: K, v: Option<V>, x: K)
    requires x != k
    ensures Get(Put(m, k, v), x) == Get(m, x)
  {
    var r := Put(m, k, v);
    assert x in r <==> x in r - {k};
    assert x in m <==> x in m - {k};
    if x in r { assert (r - {k})[x] == (m - {k})[x]; }
  }

  /** Sequence concatenation is associative. */
  lemma AppendAssoc<T>(a: seq<T>, b: seq<T>, c: seq<T>)
    ensures (a + b) + c == a + (b + c)
  {
  }

  /** A second write to `k` overrides the first. */
  lemma PutPut<K(!new), V>(m: map<K, V>, k: K, a: Option<V>, b: Option<V>)
    ensures Put(Put(m, k, a), k, b) == Put(m, k, b)
  {
    PutDetermined(m, Put(Put(m, k, a), k, b), k);
  }

  /** A second update of `k` overrides the first. */
  lemma UpdateUpdate<K(!new), V>(m: map<K, V>, k: K, a: V, b: V)
    ensures m[k := a][k := b] == m[k := b]
  {
    PutPut(m, k, Some(a), Some(b));
  }

  /** Updating `k` leaves the rest of the map as it was. */
  lemma UpdateMinus<K(!new), V>(m: map<K, V>, k: K, v: V)
    ensures m[k := v] - {k} == m - {k}
  {
    assert Put(m, k, Some(v)) == m[k := v];
  }
}
