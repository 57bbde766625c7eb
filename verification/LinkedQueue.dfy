/** The FIFO of internal/queue/queue.go: a linked list of elements plus an index from
    each item to the element that was pushed last for it. */
module LinkedQueue {
  import opened Collections

  /** A list element. Two pushes of equal items make two elements, told apart by their stamp. */
  datatype Element<T> = Element(stamp: nat, item: T)

  /** The contents of a queue: the list, the index, and the next unused stamp. */
  datatype Chain<T(==)> = Chain(base: seq<Element<T>>, index: map<T, Element<T>>, next: nat) {

    function Items(): seq<T> {
      seq(|base|, i requires 0 <= i < |base| => base[i].item)
    }

    /** Stamps grow along the list; an indexed item maps to its last element in the list. */
    ghost predicate Valid() {
      && (forall i, j | 0 <= i < j < |base| :: base[i].stamp < base[j].stamp)
      && (forall i | 0 <= i < |base| :: base[i].stamp < next)
      && (forall x | x in index :: index[x].item == x && index[x] in base)
      && (forall x, i | x in index && 0 <= i < |base| && base[i].item == x :: base[i].stamp <= index[x].stamp)
    }

    /** Every element is the indexed one of its item, so there are no duplicates. */
    ghost predicate Indexed() {
      forall e | e in base :: e.item in index && index[e.item] == e
    }

    function Add(item: T): Chain<T> {
      var e := Element(next, item);
      Chain(base + [e], index[item := e], next + 1)
    }

    function Get(): Chain<T>
      requires base != []
    {
      Chain(base[1..], index - {base[0].item}, next)
    }

    /** Without its indexed element when the item is indexed, unchanged otherwise. */
    function Remove(item: T): Chain<T> {
      if item in index then Chain(Without(base, index[item]), index - {item}, next) else this
    }
  }

  function Empty<T(==)>(): Chain<T> { Chain([], map[], 0) }

  /** What container/list does to unlink one element. */
  function Without<T(==)>(base: seq<Element<T>>, e: Element<T>): seq<Element<T>> {
    if base == [] then []
    else if base[0] == e then base[1..]
    else [base[0]] + Without(base[1..], e)
  }

  lemma {:induction false} WithoutCuts<T>(base: seq<Element<T>>, e: Element<T>) returns (p: nat)
    requires e in base
    ensures p < |base| && base[p] == e && e !in base[..p]
    ensures Without(base, e) == base[..p] + base[p + 1..]
  {
    if base[0] == e {
      p := 0;
    } else {
      p := WithoutCuts(base[1..], e);
      p := p + 1;
    }
  }

  lemma ItemsAdd<T>(c: Chain<T>, item: T)
    ensures c.Add(item).Items() == c.Items() + [item]
    ensures c.Valid() ==> c.Add(item).Valid()
    ensures c.Indexed() && item !in c.Items() ==> c.Add(item).Indexed()
  {
    var d := c.Add(item);
    forall e | e in d.base && c.Indexed() && item !in c.Items() ensures e.item in d.index && d.index[e.item] == e {
      if e in c.base {
        var i :| 0 <= i < |c.base| && c.base[i] == e;
        assert c.Items()[i] == e.item;
      }
    }
  }

  lemma ItemsGet<T>(c: Chain<T>)
    requires c.base != []
    ensures c.Items() == [c.base[0].item] + c.Get().Items()
    ensures c.Valid() ==> c.Get().Valid()
  {
    var d := c.Get();
    if c.Valid() {
      forall x | x in d.index ensures d.index[x] in d.base {
        assert c.index[x] in c.base && c.index[x] != c.base[0];
      }
    }
  }

  lemma GetKeepsIndexed<T>(c: Chain<T>)
    requires c.base != [] && c.Valid() && c.Indexed()
    ensures c.Get().Indexed() && c.base[0].item !in c.Get().Items()
  {
    var d := c.Get();
    assert c.base[0] in c.base;
    forall i | 0 <= i < |d.base| ensures d.base[i] in c.base && d.base[i].item != c.base[0].item {
      assert d.base[i] == c.base[i + 1];
    }
  }

  /** Where the i-th element was before the p-th was cut out. */
  function Skip(i: nat, p: nat): nat {
    if i < p then i else i + 1
  }

  lemma CutAt<T>(base: seq<Element<T>>, p: nat, i: nat)
    requires p < |base| && i < |base| - 1
    ensures (base[..p] + base[p + 1..])[i] == base[Skip(i, p)] && Skip(i, p) < |base|
  {
  }

  lemma CutStamps<T>(base: seq<Element<T>>, p: nat)
    requires p < |base| && forall i, j | 0 <= i < j < |base| :: base[i].stamp < base[j].stamp
    ensures
      var cut := base[..p] + base[p + 1..];
      forall i, j | 0 <= i < j < |cut| :: cut[i].stamp < cut[j].stamp
  {
    var cut := base[..p] + base[p + 1..];
    forall i, j | 0 <= i < j < |cut| ensures cut[i].stamp < cut[j].stamp {
      CutAt(base, p, i);
      CutAt(base, p, j);
    }
  }

  lemma RemoveKeepsIndex<T>(c: Chain<T>, item: T, p: nat)
    requires c.Valid() && item in c.index && p < |c.base| && c.base[p] == c.index[item]
    requires c.Remove(item).base == c.base[..p] + c.base[p + 1..]
    ensures
      var d := c.Remove(item);
      && (forall x | x in d.index :: d.index[x].item == x && d.index[x] in d.base)
      && (forall x, i | x in d.index && 0 <= i < |d.base| && d.base[i].item == x ::
            d.base[i].stamp <= d.index[x].stamp)
  {
    hide Without;
    var d := c.Remove(item);
    forall x | x in d.index ensures d.index[x].item == x && d.index[x] in d.base {
      assert c.index[x] in c.base && c.index[x] != c.index[item];
      RestKeeps(c.base, p, c.index[x]);
    }
    forall x, i | x in d.index && 0 <= i < |d.base| && d.base[i].item == x ensures d.base[i].stamp <= d.index[x].stamp {
      CutAt(c.base, p, i);
    }
  }

  lemma RemoveKeepsValid<T>(c: Chain<T>, item: T)
    requires c.Valid()
    ensures c.Remove(item).Valid()
  {
    if item in c.index {
      hide Without;
      var d := c.Remove(item);
      var p := WithoutCuts(c.base, c.index[item]);
      RemoveKeepsIndex(c, item, p);
      CutStamps(c.base, p);
      forall i | 0 <= i < |d.base| ensures d.base[i].stamp < d.next { CutAt(c.base, p, i); }
    }
  }

  lemma RestKeeps<T>(base: seq<Element<T>>, p: nat, e: Element<T>)
    requires p < |base| && e in base && e != base[p]
    ensures e in base[..p] + base[p + 1..]
  {
    assert base == base[..p] + [base[p]] + base[p + 1..];
  }

  /** Removing an indexed item takes out its last copy and keeps the order of the rest. */
  lemma RemoveCutsLast<T>(c: Chain<T>, item: T) returns (p: nat)
    requires c.Valid() && item in c.index
    ensures p < |c.Items()| && c.Items()[p] == item && item !in c.Items()[p + 1..]
    ensures c.Remove(item).Items() == c.Items()[..p] + c.Items()[p + 1..]
  {
    var e := c.index[item];
    p := WithoutCuts(c.base, e);
    forall q | p < q < |c.base| ensures c.base[q].item != item {
      assert c.base[p].stamp < c.base[q].stamp;
    }
  }

  /** Removing takes out one copy of an indexed item and nothing else. */
  lemma ItemsRemove<T>(c: Chain<T>, item: T)
    requires c.Valid()
    ensures
      var removed := if item in c.index then multiset{item} else multiset{};
      multiset(c.Remove(item).Items()) + removed == multiset(c.Items())
  {
    hide Chain.Valid, Chain.Items;
    if item in c.index {
      var p := RemoveCutsLast(c, item);
      assert c.Items() == c.Items()[..p] + [item] + c.Items()[p + 1..];
    }
  }

  lemma RemoveKeepsIndexed<T>(c: Chain<T>, item: T)
    requires c.Valid() && c.Indexed()
    ensures c.Remove(item).Indexed() && item !in c.Remove(item).Items()
  {
    hide Chain.Items, Without;
    var d := c.Remove(item);
    if item in c.index {
      var p := WithoutCuts(c.base, c.index[item]);
      forall i | 0 <= i < |d.base| ensures d.base[i] in c.base && d.base[i].item != item {
        var q := if i < p then i else i + 1;
        assert d.base[i] == c.base[q] && c.base[q] in c.base && c.base[p] in c.base;
      }
    } else {
      forall i | 0 <= i < |c.base| ensures c.base[i].item != item { assert c.base[i] in c.base; }
    }
    NoneInItems(d, item);
  }

  lemma NoneInItems<T>(c: Chain<T>, item: T)
    requires forall i | 0 <= i < |c.base| :: c.base[i].item != item
    ensures item !in c.Items()
  {
  }

  /** Remove undoes the Add just before it on the list; an older copy of the item stays, no longer indexed. */
  lemma RemoveUndoesAdd<T>(c: Chain<T>, item: T)
    requires c.Valid()
    ensures c.Add(item).Remove(item).base == c.base
    ensures c.Add(item).Remove(item).index == c.index - {item}
    ensures item in c.Items() ==> c.Add(item).Remove(item).Remove(item).base == c.base
  {
    var e := Element(c.next, item);
    assert e !in c.base;
    var p := WithoutCuts(c.base + [e], e);
    assert p == |c.base|;
  }

  /** The queue object: `base` is the linked list, `index` the map beside it. */
  class Queue<T(==)> {
    var base: seq<Element<T>>
    var index: map<T, Element<T>>
    var next: nat

    ghost function Model(): Chain<T> reads this { Chain(base, index, next) }

    constructor ()
      ensures Model() == Empty() && Model().Valid()
    {
      base, index, next := [], map[], 0;
    }

    method Add(item: T)
      requires Model().Valid()
      modifies this
      ensures Model() == old(Model()).Add(item) && Model().Valid()
      ensures Model().Items() == old(Model().Items()) + [item]
    {
      ItemsAdd(Model(), item);
      var element := Element(next, item);
      base := base + [element];
      index := index[item := element];
      next := next + 1;
    }

    method Get() returns (t: Option<T>)
      requires Model().Valid()
      modifies this
      ensures Model().Valid()
      ensures t.None? <==> old(base) == []
      ensures t.None? ==> Model() == old(Model())
      ensures t.Some? ==> t.value == old(base)[0].item && Model() == old(Model()).Get()
      ensures t.Some? ==> old(Model().Items()) == [t.value] + Model().Items()
    {
      if base == [] { return None; }
      ItemsGet(Model());
      t := Some(base[0].item);
      base := base[1..];
      index := index - {t.value};
    }

    method Remove(item: T) returns (removed: bool)
      requires Model().Valid()
      modifies this
      ensures Model().Valid()
      ensures Model() == old(Model()).Remove(item)
      ensures removed <==> item in old(index)
    {
      RemoveKeepsValid(Model(), item);
      removed := item in index;
      if removed {
        base := Without(base, index[item]);
        index := index - {item};
      }
    }

    method Len() returns (n: nat)
      ensures n == |Model().Items()|
    {
      n := |base|;
    }
  }
}
