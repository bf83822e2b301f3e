/** Byte totals and bags of contents over finite maps. */
module Totals {

  ghost function Pick<K>(m: map<K, nat>): (k: K)
    requires m != map[]
    ensures k in m
  {
    var k :| k in m; k
  }

  /** Sum of the values of a map: the byte count of a directory with these entries. */
  ghost function Total<K>(m: map<K, nat>): nat {
    if m == map[] then 0 else
      m[Pick(m)] + Total(m - {Pick(m)})
  }

  /** Bytes held under one key, zero when there is no such entry. */
  function Bytes<K>(m: map<K, nat>, k: K): nat {
    if k in m then m[k] else 0
  }

  lemma {:induction false} TotalSplit<K>(m: map<K, nat>, k: K)
    ensures Total(m) == Bytes(m, k) + Total(m - {k})
    decreases |m|
  {
    if k !in m {
      assert m - {k} == m;
    } else {
      var j := Pick(m);
      if j != k {
        TotalSplit(m - {j}, k);
        TotalSplit(m - {k}, j);
        assert m - {j} - {k} == m - {k} - {j};
      }
    }
  }

  lemma TotalUpdate<K>(m: map<K, nat>, k: K, v: nat)
    ensures Total(m[k := v]) + Bytes(m, k) == Total(m) + v
  {
    TotalSplit(m, k);
    TotalSplit(m[k := v], k);
    assert m[k := v] - {k} == m - {k};
  }

  lemma TotalRemove<K>(m: map<K, nat>, k: K)
    ensures Total(m - {k}) + Bytes(m, k) == Total(m)
  {
    TotalSplit(m, k);
  }

  /** The total of a map is the total of a part of it and of the rest. */
  lemma {:induction false} TotalParts<K>(m: map<K, nat>, part: map<K, nat>)
    requires forall k :: k in part ==> k in m && m[k] == part[k]
    ensures Total(m) == Total(part) + Total(m - part.Keys)
    decreases |part|
  {
    if part == map[] {
      assert m - part.Keys == m;
    } else {
      var k :| k in part;
      TotalSplit(m, k);
      TotalSplit(part, k);
      SmallerMap(part, k);
      TotalParts(m - {k}, part - {k});
      SameRest(m, part, k);
    }
  }

  lemma SameRest<K>(m: map<K, nat>, part: map<K, nat>, k: K)
    requires k in part
    ensures m - {k} - (part - {k}).Keys == m - part.Keys
  {
    assert (part - {k}).Keys == part.Keys - {k};
  }

  lemma SmallerMap<K>(m: map<K, nat>, k: K)
    requires k in m
    ensures (m - {k}).Keys == m.Keys - {k} && |m - {k}| < |m|
  {
    assert (m - {k}).Keys == m.Keys - {k};
  }

  /** How often a content occurs in a directory when names are forgotten. */
  ghost function Copies<K>(m: map<K, nat>, v: nat): nat {
    |set k | k in m && m[k] == v|
  }

  lemma CopiesUpdate<K>(m: map<K, nat>, k: K, x: nat, v: nat)
    requires k !in m
    ensures Copies(m[k := x], v) == Copies(m, v) + (if x == v then 1 else 0)
  {
    var grown := m[k := x];
    var before := set i | i in m && m[i] == v;
    var after := set i | i in grown && grown[i] == v;
    if x == v {
      assert after == before + {k};
    } else {
      assert after == before;
    }
  }

  lemma CopiesRemove<K>(m: map<K, nat>, k: K, v: nat)
    requires k in m
    ensures Copies(m - {k}, v) + (if m[k] == v then 1 else 0) == Copies(m, v)
  {
    CopiesUpdate(m - {k}, k, m[k], v);
    assert (m - {k})[k := m[k]] == m;
  }

  /** Bytes of the entries whose key is below n, added index by index. */
  function SumTo(m: map<nat, nat>, n: nat): nat {
    if n == 0 then 0 else SumTo(m, n - 1) + Bytes(m, n - 1)
  }

  lemma {:induction false} SumToEmpty(n: nat)
    ensures SumTo(map[], n) == 0
  {
    if n > 0 {
      SumToEmpty(n - 1);
    }
  }

  lemma {:induction false} SumToSkips(m: map<nat, nat>, k: nat, n: nat)
    requires n <= k
    ensures SumTo(m - {k}, n) == SumTo(m, n)
  {
    if n > 0 {
      SumToSkips(m, k, n - 1);
    }
  }

  /** When all keys lie below n, adding index by index gives the total. */
  lemma {:induction false} TotalIsSumTo(m: map<nat, nat>, n: nat)
    requires forall k :: k in m ==> k < n
    ensures Total(m) == SumTo(m, n)
  {
    if n == 0 {
      assert m == map[];
    } else {
      var k: nat := n - 1;
      TotalSplit(m, k);
      TotalIsSumTo(m - {k}, k);
      SumToSkips(m, k, k);
    }
  }
}
