/** sort.Ints on the key set of a map: the strictly ascending sequence of its keys. */
module Sorting {
  import opened Collections

  function SortedKeys(keys: set<int>): (r: seq<int>)
    ensures |r| == |keys| && Ascending(r)
    ensures forall k :: k in r <==> k in keys
  {
    if keys == {} then []
    else
      HasMaximum(keys);
      var m :| m in keys && forall k | k in keys :: k <= m;
      var r' := SortedKeys(keys - {m});
      LastIsMaximum(keys, r', m);
      r' + [m]
  }

  lemma LastIsMaximum(keys: set<int>, r: seq<int>, m: int)
    requires m in keys && forall k | k in keys :: k <= m
    requires Ascending(r) && forall k :: k in r <==> k in keys - {m}
    ensures Ascending(r + [m]) && forall k :: k in r + [m] <==> k in keys
  {
    forall i | 0 <= i < |r| ensures r[i] < m { assert r[i] in r; }
    assert forall k :: k in r + [m] <==> k in r || k == m;
  }

  predicate Ascending(r: seq<int>) { forall i, j | 0 <= i < j < |r| :: r[i] < r[j] }

  lemma {:induction false} HasMaximum(keys: set<int>)
    requires keys != {}
    ensures exists m :: m in keys && forall k | k in keys :: k <= m
  {
    var x := Pick(keys);
    if keys != {x} {
      HasMaximum(keys - {x});
      var m :| m in keys - {x} && forall k | k in keys - {x} :: k <= m;
      var n := if x <= m then m else x;
      assert keys == keys - {x} + {x};
      assert n in keys && forall k | k in keys :: k <= n;
    }
  }

  lemma {:induction false} AscendingCount(r: seq<int>)
    requires Ascending(r)
    ensures |set k | k in r| == |r|
  {
    if r != [] {
      var init, last := r[..|r| - 1], r[|r| - 1];
      AscendingCount(init);
      assert r == init + [last];
      assert (set k | k in r) == (set k | k in init) + {last};
    }
  }

  lemma {:induction false} AscendingUnique(r: seq<int>, t: seq<int>)
    requires Ascending(r) && Ascending(t) && |r| == |t|
    requires forall k :: k in r <==> k in t
    ensures r == t
  {
    if r != [] {
      assert r[|r| - 1] in t && t[|t| - 1] in r;
      var m, r', t' := r[|r| - 1], r[..|r| - 1], t[..|t| - 1];
      assert r == r' + [m] && t == t' + [m];
      forall k ensures k in r' <==> k in t' {
        assert k in r <==> k in r' || k == m;
        assert k in t <==> k in t' || k == m;
      }
      AscendingUnique(r', t');
    }
  }

  lemma {:induction false} FullSubset(a: set<int>, b: set<int>)
    requires a <= b && |a| == |b|
    ensures a == b
  {
    if b != {} {
      var x := Pick(b);
      if x in a {
        FullSubset(a - {x}, b - {x});
      } else {
        SubsetSize(a, b - {x});
      }
    }
  }

  lemma {:induction false} SubsetSize(a: set<int>, b: set<int>)
    requires a <= b
    ensures |a| <= |b|
  {
    if a != {} {
      var x := Pick(a);
      SubsetSize(a - {x}, b - {x});
    }
  }
}
