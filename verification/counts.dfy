/**
 * Counting dictionaries: a map from a key to the number of times it was seen.
 * This is the shape of every dictionary the log parser keeps (per request
 * method and per client address), whether block-local or global.
 */
module Counts {

  /** The count of `k` in `m`; a key that is absent counts zero. */
  function Get<K>(m: map<K, nat>, k: K): nat {
    if k in m then m[k] else 0
  }

  /**
   * `AddOrUpdate(k, v, (key, old) => old + v)` on a counting dictionary:
   * a new key is inserted with `v`, an existing one has `v` added to it.
   */
  function Upsert<K>(m: map<K, nat>, k: K, v: nat): (r: map<K, nat>)
    ensures r.Keys == m.Keys + {k}
    ensures Get(r, k) == Get(m, k) + v
    ensures forall j :: j in m && j != k ==> r[j] == m[j]
  {
    m[k := if k in m then m[k] + v else v]
  }

  /** Entrywise sum: every key of either map, with the sum of its two counts. */
  function AddAll<K>(a: map<K, nat>, b: map<K, nat>): map<K, nat> {
    map k | k in a.Keys + b.Keys :: Get(a, k) + Get(b, k)
  }

  /** Adding a map into another adds, key by key, the two counts; no other key appears. */
  lemma AddAllAt<K>(a: map<K, nat>, b: map<K, nat>, k: K)
    ensures Get(AddAll(a, b), k) == Get(a, k) + Get(b, k)
    ensures k in AddAll(a, b) <==> k in a || k in b
    ensures k !in b ==> Get(AddAll(a, b), k) == Get(a, k)
  {
  }

  /** The empty map is the unit of entrywise addition. */
  lemma AddAllEmpty<K>(a: map<K, nat>)
    ensures AddAll(a, map[]) == a
    ensures AddAll(map[], a) == a
  {
    assert AddAll(a, map[]).Keys == a.Keys;
    assert AddAll(map[], a).Keys == a.Keys;
  }

  lemma AddAllCommutes<K>(a: map<K, nat>, b: map<K, nat>)
    ensures AddAll(a, b) == AddAll(b, a)
  {
    assert AddAll(a, b).Keys == AddAll(b, a).Keys;
  }

  lemma AddAllAssociates<K>(a: map<K, nat>, b: map<K, nat>, c: map<K, nat>)
    ensures AddAll(AddAll(a, b), c) == AddAll(a, AddAll(b, c))
  {
    assert AddAll(AddAll(a, b), c).Keys == AddAll(a, AddAll(b, c)).Keys;
  }

  /** Inserting-or-adding into a sum is the same as doing it in the right operand first. */
  lemma UpsertAddAll<K>(a: map<K, nat>, b: map<K, nat>, k: K, v: nat)
    ensures Upsert(AddAll(a, b), k, v) == AddAll(a, Upsert(b, k, v))
  {
    assert Upsert(AddAll(a, b), k, v).Keys == AddAll(a, Upsert(b, k, v)).Keys;
  }

  /** The sum of all counts in `m`. */
  ghost function Total<K>(m: map<K, nat>): nat
    decreases m.Keys
  {
    if m.Keys == {} then 0
    else
      var k :| k in m;
      m[k] + Total(m - {k})
  }

  /** `Total` does not depend on which key it takes out first. */
  lemma {:induction false} TotalRemove<K>(m: map<K, nat>, k: K)
    requires k in m
    ensures Total(m) == m[k] + Total(m - {k})
    decreases m.Keys
  {
    var j :| j in m && Total(m) == m[j] + Total(m - {j});
    if j != k {
      TotalRemove(m - {j}, k);
      TotalRemove(m - {k}, j);
      assert m - {j} - {k} == m - {k} - {j};
    }
  }

  /** Inserting-or-adding `v` raises the sum of all counts by exactly `v`. */
  lemma TotalUpsert<K>(m: map<K, nat>, k: K, v: nat)
    ensures Total(Upsert(m, k, v)) == Total(m) + v
  {
    var r := Upsert(m, k, v);
    TotalRemove(r, k);
    if k in m {
      TotalRemove(m, k);
      assert r - {k} == m - {k};
    } else {
      assert r - {k} == m;
    }
  }

  /** Merging one counting map into another conserves the sum of counts. */
  lemma {:induction false} TotalAddAll<K>(a: map<K, nat>, b: map<K, nat>)
    ensures Total(AddAll(a, b)) == Total(a) + Total(b)
    decreases b.Keys
  {
    if b.Keys == {} {
      assert b == map[];
      AddAllEmpty(a);
    } else {
      var k :| k in b;
      var rest := b - {k};
      assert Upsert(rest, k, b[k]) == b;
      UpsertAddAll(a, rest, k, b[k]);
      TotalAddAll(a, rest);
      TotalUpsert(AddAll(a, rest), k, b[k]);
      TotalRemove(b, k);
    }
  }
}
