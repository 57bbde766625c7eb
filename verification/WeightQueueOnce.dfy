/** Exactly-once dispatch, and the second raise that breaks it. */
module WeightQueueOnce {
  import opened Collections
  import opened LinkedQueue
  import opened WeightQueue
  import opened WeightQueueSystem

  /** One copy of every indexed item, none of any other. */
  ghost predicate Once<T(!new)>(s: Sys<T>) { OneEach(Copies(s), s.q.index.Keys) }

  ghost predicate OneEach<T(!new)>(m: multiset<T>, keys: set<T>) {
    forall x :: m[x] == if x in keys then 1 else 0
  }

  /** Where that copy is, as far as the index tells: a moved item is no longer waiting, an
      item never raised waits under its stored weight, and a raised one does not. */
  ghost predicate PlacedAt<T(!new)>(q: State<T>, raised: set<T>, x: T) {
    && (x in q.index && q.index[x].soon ==> x !in WaitBag(q.queues))
    && (x in q.index && !q.index[x].soon && x !in raised ==> Waits(q, q.index[x].weight, x))
    && (x in raised ==> x in q.index && (q.index[x].soon || !Waits(q, q.index[x].weight, x)))
  }

  ghost predicate Waits<T(!new)>(q: State<T>, w: int, x: T) { w in q.queues && x in q.queues[w].Items() }

  ghost predicate AllIndexed<T(!new)>(q: State<T>) { forall w | w in q.queues :: q.queues[w].Indexed() }

  ghost predicate Placed<T(!new)>(s: Sys<T>) {
    AllIndexed(s.q) && forall x :: PlacedAt(s.q, s.raised, x)
  }

  /** The caller-visible condition: the op does not raise an item that was raised already
      since it was last added. */
  ghost predicate RaisesOnce<T(!new)>(s: Sys<T>, op: Op<T>) {
    op.Add? && Raises(s.q, op.item, op.weight) ==> op.item !in s.raised
  }

  ghost predicate RunsOnce<T(!new)>(s: Sys<T>, ops: seq<Op<T>>)
    decreases |ops|
  {
    ops == [] || (Enabled(s, ops[0]) && RaisesOnce(s, ops[0]) && RunsOnce(Apply(s, ops[0]), ops[1..]))
  }

  lemma InQueueInBag<T>(queues: map<int, Chain<T>>, w: int, x: T)
    requires w in queues
    ensures x in queues[w].Items() ==> x in WaitBag(queues)
    ensures multiset(queues[w].Items())[x] <= WaitBag(queues)[x]
  {
    BagSplit(Contents(queues), w);
  }

  lemma InIndexOfChain<T>(c: Chain<T>, x: T)
    requires c.Valid() && c.Indexed()
    ensures x in c.Items() <==> x in c.index
  {
    if x in c.Items() {
      var i :| 0 <= i < |c.Items()| && c.Items()[i] == x;
      assert c.base[i] in c.base;
    }
    if x in c.index {
      var i :| 0 <= i < |c.base| && c.base[i] == c.index[x];
      assert c.Items()[i] == x;
    }
  }

  /** An item keeps its place when its entry and its own copies stay as they are. */
  lemma PlaceKept<T(!new)>(q: State<T>, raised: set<T>, r: State<T>, raised': set<T>, y: T)
    requires PlacedAt(q, raised, y)
    requires y in r.index <==> y in q.index
    requires y in q.index ==> r.index[y] == q.index[y]
    requires y in raised <==> y in raised'
    requires y in WaitBag(r.queues) ==> y in WaitBag(q.queues)
    requires forall v :: Waits(r, v, y) <==> Waits(q, v, y)
    ensures PlacedAt(r, raised', y)
  {
  }

  // ---- AddWeight ----

  lemma EnqueueIndexed<T(!new)>(q: State<T>, x: T, w: int)
    requires AllIndexed(q) && x !in WaitBag(q.queues)
    ensures AllIndexed(Enqueue(q, x, w)) && Waits(Enqueue(q, x, w), w, x)
    ensures forall v :: v != w ==> !Waits(Enqueue(q, x, w), v, x)
    ensures forall v, y :: y != x ==> (Waits(Enqueue(q, x, w), v, y) <==> Waits(q, v, y))
  {
    forall v | v in q.queues ensures x !in q.queues[v].Items() { InQueueInBag(q.queues, v, x); }
    var c := if w in q.queues then q.queues[w] else Empty();
    assert c.Indexed() && x !in c.Items();
    hide WaitBag, Chain.Valid, Chain.Indexed;
    ItemsAdd(c, x);
  }

  lemma EnqueueFrame<T(!new)>(q: State<T>, x: T, w: int)
    ensures Enqueue(q, x, w) == q.(queues := Enqueue(q, x, w).queues)
    ensures forall y | y != x :: y in WaitBag(Enqueue(q, x, w).queues) <==> y in WaitBag(q.queues)
  {
    hide WaitBag;
    EnqueueBag(q, x, w);
  }

  /** A raise of an item whose copy is under its stored weight takes that copy out. */
  lemma UnqueueClears<T(!new)>(s: Sys<T>, x: T)
    requires Structure(s) && Once(s) && Placed(s) && x in s.q.index && !s.q.index[x].soon && x !in s.raised
    ensures x in s.q.queues[s.q.index[x].weight].index
    ensures x !in WaitBag(Unqueue(s.q, x, s.q.index[x].weight).queues)
  {
    var w := s.q.index[x].weight;
    assert PlacedAt(s.q, s.raised, x);
    assert s.q.queues[w].Valid() && s.q.queues[w].Indexed();
    hide Structure, Placed, PlacedAt, Chain.Valid, Chain.Indexed, Bag, WaitBag, Unqueue;
    InIndexOfChain(s.q.queues[w], x);
    UnqueueBag(s.q, x, w);
    assert Copies(s)[x] == 1;
    assert (WaitBag(Unqueue(s.q, x, w).queues) + multiset{x})[x] == WaitBag(s.q.queues)[x];
  }

  lemma RemoveOthers<T>(c: Chain<T>, x: T, y: T)
    requires c.Valid() && y != x
    ensures y in c.Remove(x).Items() <==> y in c.Items()
  {
    hide Chain.Valid, Chain.Remove, Chain.Items;
    ItemsRemove(c, x);
    var b := if x in c.index then multiset{x} else multiset{};
    assert (multiset(c.Remove(x).Items()) + b)[y] == multiset(c.Items())[y];
  }

  lemma UnqueueFrame<T(!new)>(q: State<T>, x: T, w: int)
    requires w in q.queues && q.queues[w].Valid() && AllIndexed(q)
    ensures AllIndexed(Unqueue(q, x, w)) && Unqueue(q, x, w) == q.(queues := Unqueue(q, x, w).queues)
    ensures forall v, y :: y != x ==> (Waits(Unqueue(q, x, w), v, y) <==> Waits(q, v, y))
    ensures forall y | y != x :: y in WaitBag(Unqueue(q, x, w).queues) ==> y in WaitBag(q.queues)
  {
    RemoveKeepsIndexed(q.queues[w], x);
    hide WaitBag, Chain.Valid, Chain.Indexed, Chain.Remove;
    forall y | y != x ensures y in q.queues[w].Remove(x).Items() <==> y in q.queues[w].Items() {
      RemoveOthers(q.queues[w], x, y);
    }
    UnqueueBag(q, x, w);
    var b := if x in q.queues[w].index then multiset{x} else multiset{};
    forall y | y != x && y in WaitBag(Unqueue(q, x, w).queues) ensures y in WaitBag(q.queues) {
      assert (WaitBag(Unqueue(q, x, w).queues) + b)[y] == WaitBag(q.queues)[y];
    }
  }

  lemma AddNewPlaced<T(!new)>(s: Sys<T>, x: T, weight: int)
    requires Structure(s) && Once(s) && Placed(s) && x !in s.q.index && s.holder.None?
    ensures Placed(Apply(s, Add(x, weight)))
  {
    assert Copies(s)[x] == 0;
    assert x !in WaitBag(s.q.queues);
    hide Structure, Once, Copies, WaitBag, Enqueue, AllIndexed, Waits;
    var w := NonZero(weight);
    var q := s.q.(index := s.q.index[x := Entry(s.q.issued, w, false)], issued := s.q.issued + 1);
    assert AllIndexed(q) by { SameQueues(s.q, q); }
    EnqueueIndexed(q, x, w);
    EnqueueFrame(q, x, w);
    var t := Apply(s, Add(x, weight));
    assert PlacedAt(s.q, s.raised, x);
    hide PlacedAt;
    assert PlacedAt(t.q, t.raised, x) by { FreshPlaced(t.q, t.raised, x); }
    forall y | y != x ensures PlacedAt(t.q, t.raised, y) {
      forall v ensures Waits(t.q, v, y) <==> Waits(s.q, v, y) { SameQueues(s.q, q); }
      PlaceKept(s.q, s.raised, t.q, t.raised, y);
    }
  }

  lemma SameQueues<T(!new)>(q: State<T>, r: State<T>)
    requires q.queues == r.queues
    ensures AllIndexed(q) <==> AllIndexed(r)
    ensures forall v, y :: Waits(q, v, y) <==> Waits(r, v, y)
  {
  }

  lemma FreshPlaced<T(!new)>(q: State<T>, raised: set<T>, x: T)
    requires x in q.index && !q.index[x].soon && x !in raised && Waits(q, q.index[x].weight, x)
    ensures PlacedAt(q, raised, x)
  {
  }

  lemma RaisedPlaced<T(!new)>(q: State<T>, raised: set<T>, x: T)
    requires x in q.index && !q.index[x].soon && x in raised && !Waits(q, q.index[x].weight, x)
    ensures PlacedAt(q, raised, x)
  {
  }

  lemma RaisePlaced<T(!new)>(s: Sys<T>, x: T, weight: int)
    requires Structure(s) && Once(s) && Placed(s) && Raises(s.q, x, weight) && x !in s.raised && s.holder.None?
    ensures Placed(Apply(s, Add(x, weight)))
  {
    var w, v := NonZero(weight), s.q.index[x].weight;
    UnqueueClears(s, x);
    assert v in s.q.queues && s.q.queues[v].Valid();
    hide Structure, Once, Copies, WaitBag, Enqueue, Unqueue, AllIndexed, Waits, PlacedAt, Chain.Valid;
    var u := Unqueue(s.q, x, v);
    UnqueueFrame(s.q, x, v);
    EnqueueIndexed(u, x, w);
    EnqueueFrame(u, x, w);
    var t := Apply(s, Add(x, weight));
    assert t.q == Enqueue(u, x, w);
    RaisedPlaced(t.q, t.raised, x);
    forall y | y != x ensures PlacedAt(t.q, t.raised, y) {
      PlaceKept(s.q, s.raised, t.q, t.raised, y);
    }
  }

  // ---- the other ops ----

  lemma MoveFrame<T(!new)>(q: State<T>, w: int)
    requires w in q.queues && q.queues[w].base != [] && q.queues[w].Valid() && AllIndexed(q)
    ensures var x := q.queues[w].base[0].item; var r := MoveOne(q, w);
      && AllIndexed(r) && WaitBag(r.queues) + multiset{x} == WaitBag(q.queues) && x in WaitBag(q.queues)
      && (forall v, y :: y != x ==> (Waits(r, v, y) <==> Waits(q, v, y)))
  {
    MoveOneBag(q, w);
    GetKeepsIndexed(q.queues[w]);
    ItemsGet(q.queues[w]);
    hide WaitBag, Chain.Valid, Chain.Indexed;
    var x, r := q.queues[w].base[0].item, MoveOne(q, w);
    assert (WaitBag(r.queues) + multiset{x})[x] > 0;
  }

  lemma MovePlaced<T(!new)>(s: Sys<T>, w: int)
    requires Structure(s) && Once(s) && Placed(s) && w in s.q.queues && s.q.queues[w].base != []
    ensures var r := MoveOne(s.q, w); AllIndexed(r) && forall y :: PlacedAt(r, s.raised, y)
  {
    assert s.q.queues[w].Valid();
    hide Structure, WaitBag, Waits, AllIndexed, PlacedAt, Chain.Valid;
    MoveFrame(s.q, w);
    var x, r := s.q.queues[w].base[0].item, MoveOne(s.q, w);
    assert Copies(s)[x] >= WaitBag(s.q.queues)[x] > 0;
    MovedPlaced(s.q, r, s.raised, x);
    forall y | y != x ensures PlacedAt(r, s.raised, y) {
      assert (WaitBag(r.queues) + multiset{x})[y] == WaitBag(s.q.queues)[y];
      PlaceKept(s.q, s.raised, r, s.raised, y);
    }
  }

  lemma MovedPlaced<T(!new)>(q: State<T>, r: State<T>, raised: set<T>, x: T)
    requires x in r.index && r.index[x].soon && WaitBag(q.queues)[x] <= 1
    requires WaitBag(r.queues) + multiset{x} == WaitBag(q.queues)
    ensures PlacedAt(r, raised, x)
  {
    hide WaitBag;
    assert (WaitBag(r.queues) + multiset{x})[x] == WaitBag(q.queues)[x];
  }

  lemma FinishPlaced<T(!new)>(s: Sys<T>, x: T)
    requires Placed(s)
    ensures var r := WeightQueue.Finish(s.q, x); AllIndexed(r) && forall y :: PlacedAt(r, s.raised - {x}, y)
  {
    var r := WeightQueue.Finish(s.q, x);
    SameQueues(s.q, r);
    hide WaitBag, Waits, AllIndexed;
    forall y ensures PlacedAt(r, s.raised - {x}, y) {
      assert PlacedAt(s.q, s.raised, y);
    }
  }

  lemma SamePlaced<T(!new)>(s: Sys<T>, t: Sys<T>)
    requires Placed(s) && t.q.queues == s.q.queues && t.q.index == s.q.index && t.raised == s.raised
    ensures Placed(t)
  {
    SameQueues(s.q, t.q);
    forall y ensures PlacedAt(t.q, t.raised, y) { assert PlacedAt(s.q, s.raised, y); }
  }

  lemma PlacedStep<T(!new)>(s: Sys<T>, op: Op<T>)
    requires Structure(s) && Once(s) && Placed(s) && Enabled(s, op) && RaisesOnce(s, op)
    ensures Placed(Apply(s, op))
  {
    hide Structure, Once, PlacedAt, AllIndexed, Enqueue, Unqueue;
    match op
    case Add(x, weight) =>
      if x !in s.q.index { AddNewPlaced(s, x, weight); }
      else if Raises(s.q, x, weight) { RaisePlaced(s, x, weight); }
      else { SamePlaced(s, Apply(s, op)); }
    case Tick(w) =>
      var p := s.workers[w];
      if p.i > 0 && p.left != 0 && s.q.queues[s.q.orders[p.i - 1]].base != [] {
        MovePlaced(s, s.q.orders[p.i - 1]);
      } else {
        SamePlaced(s, Apply(s, op));
      }
    case Finish(w) => FinishPlaced(s, s.workers[w].item);
    case FinishDeferred(x) => FinishPlaced(s, x);
    case _ => SamePlaced(s, Apply(s, op));
  }

  lemma OneMore<T(!new)>(m: multiset<T>, keys: set<T>, x: T)
    requires OneEach(m, keys)
    ensures OneEach(m + multiset{x}, keys + {x}) <==> x !in keys
  {
    assert (m + multiset{x})[x] == m[x] + 1;
  }

  lemma OneFewer<T(!new)>(m: multiset<T>, keys: set<T>, n: multiset<T>, x: T)
    requires OneEach(m, keys) && n + multiset{x} == m
    ensures OneEach(n, keys - {x})
  {
    assert n == m - multiset{x};
  }

  lemma OnceAddNew<T(!new)>(s: Sys<T>, x: T, weight: int)
    requires Structure(s) && Once(s) && s.holder.None? && x !in s.q.index
    ensures Once(Apply(s, Add(x, weight)))
  {
    hide Structure, Copies, OneEach;
    OpCopies(s, Add(x, weight));
    OneMore(Copies(s), s.q.index.Keys, x);
    assert AddWeight(s.q, x, weight).index.Keys == s.q.index.Keys + {x};
  }

  lemma OnceAddKnown<T(!new)>(s: Sys<T>, x: T, weight: int)
    requires Structure(s) && Once(s) && s.holder.None? && x in s.q.index
    requires Raises(s.q, x, weight) ==> x in s.q.queues[s.q.index[x].weight].index
    ensures Once(Apply(s, Add(x, weight)))
  {
    hide Structure, Copies, OneEach;
    OpCopies(s, Add(x, weight));
    assert AddWeight(s.q, x, weight).index == s.q.index;
  }

  lemma OnceAdd<T(!new)>(s: Sys<T>, x: T, weight: int)
    requires Structure(s) && Once(s) && Placed(s) && s.holder.None? && RaisesOnce(s, Add(x, weight))
    ensures Once(Apply(s, Add(x, weight)))
  {
    if Raises(s.q, x, weight) { UnqueueClears(s, x); }
    hide Structure, Once, Placed, Apply;
    if x in s.q.index { OnceAddKnown(s, x, weight); } else { OnceAddNew(s, x, weight); }
  }

  lemma OnceStep<T(!new)>(s: Sys<T>, op: Op<T>)
    requires Structure(s) && Once(s) && Placed(s) && Enabled(s, op) && RaisesOnce(s, op)
    ensures Once(Apply(s, op))
  {
    hide Structure, Copies, Placed, OneEach;
    if op.Add? {
      OnceAdd(s, op.item, op.weight);
    } else {
      hide Apply, Finished;
      OpCopies(s, op);
      IndexKeys(s, op);
      if Finished(s, op).Some? {
        OneFewer(Copies(s), s.q.index.Keys, Copies(Apply(s, op)), Finished(s, op).value);
      }
    }
  }

  // ---- main results ----

  lemma {:induction false} RunKeepsOnce<T(!new)>(s: Sys<T>, ops: seq<Op<T>>)
    requires Structure(s) && Once(s) && Placed(s) && RunsOnce(s, ops)
    ensures Runs(s, ops) && Once(After(s, ops)) && Placed(After(s, ops)) && Structure(After(s, ops))
    decreases |ops|
  {
    hide Structure, Once, Placed, Enabled, Apply, RaisesOnce;
    if ops != [] {
      StructureStep(s, ops[0]);
      PlacedStep(s, ops[0]);
      OnceStep(s, ops[0]);
      RunKeepsOnce(Apply(s, ops[0]), ops[1..]);
    }
  }

  lemma StartOnce<T(!new)>()
    ensures var s := Start<T>(); Structure(s) && Once(s) && Placed(s)
  {
    assert Bag(Contents<T>(map[])) == multiset{};
    assert Bag(Hands<T>(map[])) == multiset{};
  }

  /** Exactly-once dispatch: if no item is raised twice between two of its additions, then at
      every point of every interleaving an indexed item has exactly one copy and any other none. */
  lemma ExactlyOnce<T(!new)>(ops: seq<Op<T>>)
    requires RunsOnce(Start<T>(), ops)
    ensures Runs(Start<T>(), ops) && Once(After(Start<T>(), ops))
  {
    StartOnce<T>();
    RunKeepsOnce(Start<T>(), ops);
  }

  /** In particular two workers never work on the same item at once, nor is an item that some
      worker holds, or has handed on, waiting for a second deferred closure. */
  lemma NoTwoHolders<T(!new)>(ops: seq<Op<T>>, v: nat, w: nat)
    requires RunsOnce(Start<T>(), ops)
    ensures Runs(Start<T>(), ops)
    ensures var workers := After(Start<T>(), ops).workers;
      v != w && v in workers && w in workers && workers[v].Holding? && workers[w].Holding? ==>
        workers[v].item != workers[w].item
    ensures var s := After(Start<T>(), ops);
      && (v in s.workers && s.workers[v].Holding? ==> s.workers[v].item !in s.deferred)
      && (forall x | x in s.deferred :: s.deferred[x] == 1)
  {
    ExactlyOnce(ops);
    hide Runs, After, RunsOnce;
    var s := After(Start<T>(), ops);
    if v in s.workers && s.workers[v].Holding? {
      HeldOnce(s, v);
      if v != w && w in s.workers && s.workers[w].Holding? { TwoHands(s, v, w); }
    }
    forall x | x in s.deferred ensures s.deferred[x] == 1 { DeferredOnce(s, x); }
  }

  lemma DeferredOnce<T(!new)>(s: Sys<T>, x: T)
    requires Once(s)
    ensures s.deferred[x] <= 1
  {
    hide Queued, Bag, Hands;
    assert Copies(s)[x] <= 1;
  }

  lemma HeldOnce<T(!new)>(s: Sys<T>, v: nat)
    requires Once(s) && v in s.workers && s.workers[v].Holding?
    ensures s.workers[v].item !in s.deferred
  {
    hide Queued, Bag;
    BagSplit(Hands(s.workers), v);
    assert Copies(s)[s.workers[v].item] <= 1;
  }

  lemma TwoHands<T(!new)>(s: Sys<T>, v: nat, w: nat)
    requires Once(s) && v != w && v in s.workers && w in s.workers && s.workers[v].Holding? && s.workers[w].Holding?
    ensures s.workers[v].item != s.workers[w].item
  {
    hide Queued, Bag;
    var m, x := Hands(s.workers), s.workers[v].item;
    BagSplit(m, v);
    BagSplit(m - {v}, w);
    assert Copies(s)[x] <= 1;
  }

  /** The condition is exact: from any such state an AddWeight keeps one copy per item if and
      only if it is not a second raise, because the raise before it did not store its weight. */
  lemma SecondRaiseDuplicates<T(!new)>(earlier: seq<Op<T>>, x: T, weight: int)
    requires RunsOnce(Start<T>(), earlier)
    requires Runs(Start<T>(), earlier) && Enabled(After(Start<T>(), earlier), Add(x, weight))
    ensures var s := After(Start<T>(), earlier);
      Once(Apply(s, Add(x, weight))) <==> RaisesOnce(s, Add(x, weight))
  {
    StartOnce<T>();
    RunKeepsOnce(Start<T>(), earlier);
    var s := After(Start<T>(), earlier);
    hide Runs, After, RunsOnce, Structure, Once, Placed;
    if RaisesOnce(s, Add(x, weight)) { OnceStep(s, Add(x, weight)); } else { RaisedAgain(s, x, weight); }
  }

  lemma RaisedGone<T(!new)>(s: Sys<T>, x: T)
    requires Structure(s) && Placed(s) && x in s.q.index && !s.q.index[x].soon && x in s.raised
    ensures s.q.index[x].weight in s.q.queues && x !in s.q.queues[s.q.index[x].weight].index
  {
    assert PlacedAt(s.q, s.raised, x);
    EntriesListed(s.q, x);
    InIndexOfChain(s.q.queues[s.q.index[x].weight], x);
  }

  lemma RaisedAgain<T(!new)>(s: Sys<T>, x: T, weight: int)
    requires Structure(s) && Once(s) && Placed(s) && Enabled(s, Add(x, weight)) && !RaisesOnce(s, Add(x, weight))
    ensures !Once(Apply(s, Add(x, weight)))
  {
    hide Structure, Placed, OneEach, Copies;
    RaisedGone(s, x);
    OpCopies(s, Add(x, weight));
    OneMore(Copies(s), s.q.index.Keys, x);
    assert s.q.index.Keys + {x} == s.q.index.Keys == Apply(s, Add(x, weight)).q.index.Keys;
  }

  /** The shortest such run: one item added and then twice asked for at the same higher weight
      is queued twice under that weight. */
  lemma TwoRaisesQueueTwoCopies<T(!new)>(x: T)
    ensures var ops := [Add(x, 1), Add(x, 5), Add(x, 5)];
      && Runs(Start<T>(), ops)
      && 5 in After(Start<T>(), ops).q.queues && After(Start<T>(), ops).q.queues[5].Items() == [x, x]
  {
    var s0 := Start<T>();
    var s1 := Apply(s0, Add(x, 1));
    var s2 := Apply(s1, Add(x, 5));
    var s3 := Apply(s2, Add(x, 5));
    assert s3.q.queues[5].Items() == [x, x];
    assert Runs(s3, []);
    assert Runs(s2, [Add(x, 5)]);
    assert [Add(x, 5), Add(x, 5)][1..] == [Add(x, 5)];
    assert Runs(s1, [Add(x, 5), Add(x, 5)]);
    assert [Add(x, 1), Add(x, 5), Add(x, 5)][1..] == [Add(x, 5), Add(x, 5)];
    assert After(s2, [Add(x, 5)]) == s3;
    assert After(s1, [Add(x, 5), Add(x, 5)]) == s3;
  }
}
