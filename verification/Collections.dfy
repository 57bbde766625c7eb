/** Sums and multiset unions over the entries of a map, shared by the state machines. */
module Collections {

  datatype Option<+T> = None | Some(value: T)

  lemma Pick<T>(s: set<T>) returns (x: T)
    requires s != {}
    ensures x in s
  {
    x :| x in s;
  }

  /** The concatenation of the chunks a stream was cut into. */
  function Flatten<T>(parts: seq<seq<T>>): seq<T> {
    if parts == [] then [] else Flatten(parts[..|parts| - 1]) + parts[|parts| - 1]
  }

  /** The sum of all values of a map. */
  ghost function Sum<K>(m: map<K, int>): int
  {
    if m.Keys == {} then 0
    else
      var k :| k in m.Keys;
      m[k] + Sum(m - {k})
  }

  lemma {:induction false} SumSplit<K>(m: map<K, int>, k: K)
    requires k in m
    ensures Sum(m) == m[k] + Sum(m - {k})
    decreases |m|
  {
    var j :| j in m.Keys && Sum(m) == m[j] + Sum(m - {j});
    if j != k {
      SumSplit(m - {j}, k);
      SumSplit(m - {k}, j);
      var rest := m - {j, k};
      assert m - {j} - {k} == rest && m - {k} - {j} == rest;
    }
  }

  lemma SumUpdate<K>(m: map<K, int>, k: K, v: int)
    ensures Sum(m[k := v]) == Sum(m) + v - (if k in m then m[k] else 0)
  {
    SumSplit(m[k := v], k);
    assert m[k := v] - {k} == m - {k};
    if k in m { SumSplit(m, k); } else { assert m - {k} == m; }
  }

  lemma {:induction false} SumBounds<K>(m: map<K, int>)
    requires forall k | k in m :: 0 <= m[k]
    ensures 0 <= Sum(m) && forall k | k in m :: m[k] <= Sum(m)
    decreases |m|
  {
    forall k | k in m ensures 0 <= Sum(m) && m[k] <= Sum(m) {
      SumSplit(m, k);
      SumBounds(m - {k});
    }
  }

  /** The multiset union of all sequences held by a map. */
  ghost function Bag<K, T>(m: map<K, seq<T>>): multiset<T>
  {
    if m.Keys == {} then multiset{}
    else
      var k :| k in m.Keys;
      multiset(m[k]) + Bag(m - {k})
  }

  lemma {:induction false} BagSplit<K, T>(m: map<K, seq<T>>, k: K)
    requires k in m
    ensures Bag(m) == multiset(m[k]) + Bag(m - {k})
    decreases |m|
  {
    var j :| j in m.Keys && Bag(m) == multiset(m[j]) + Bag(m - {j});
    if j != k {
      BagSplit(m - {j}, k);
      BagSplit(m - {k}, j);
      var rest := m - {j, k};
      assert m - {j} - {k} == rest && m - {k} - {j} == rest;
      assert Bag(m) == multiset(m[j]) + (multiset(m[k]) + Bag(rest));
    }
  }

  lemma BagUpdate<K, T>(m: map<K, seq<T>>, k: K, v: seq<T>)
    ensures Bag(m[k := v]) + multiset(if k in m then m[k] else []) == Bag(m) + multiset(v)
  {
    BagSplit(m[k := v], k);
    assert m[k := v] - {k} == m - {k};
    if k in m { BagSplit(m, k); } else { assert m - {k} == m; }
  }

  lemma {:induction false} BagWitness<K, T>(m: map<K, seq<T>>, x: T) returns (k: K)
    requires x in Bag(m)
    ensures k in m && x in m[k]
    decreases |m|
  {
    k :| k in m.Keys && Bag(m) == multiset(m[k]) + Bag(m - {k});
    if x !in m[k] { k := BagWitness(m - {k}, x); }
  }

  lemma BagMember<K, T>(m: map<K, seq<T>>, k: K, x: T)
    requires k in m && x in m[k]
    ensures x in Bag(m)
  {
    BagSplit(m, k);
  }

  lemma BagCancel<T>(a: multiset<T>, b: multiset<T>, c: multiset<T>)
    requires a + c == b + c
    ensures a == b
  {
    assert a == a + c - c && b == b + c - c;
  }
}
