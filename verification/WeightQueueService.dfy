/** The same bound in calls of Get: how many of them it takes until a waiting item is handed to a caller. */
module WeightQueueService {
  import opened Collections
  import opened LinkedQueue
  import opened Sorting
  import opened WeightQueue
  import opened WeightQueueStarvation

  /** Calls on the queue with no worker in between: Get is the sequential one. */
  datatype Call<T> = Put(item: T, weight: int) | Get | End(item: T)

  ghost function Serve<T(!new)>(s: State<T>, c: Call<T>): State<T>
    requires Valid(s)
  {
    match c
    case Put(x, v) => AddWeight(s, x, v)
    case Get =>
      var r := if s.ready.base == [] then Step(s) else s;
      if r.ready.base == [] then r else PopReady(r)
    case End(x) => Finish(s, x)
  }

  lemma ServeValid<T(!new)>(s: State<T>, c: Call<T>)
    requires Valid(s)
    ensures Valid(Serve(s, c))
  {
    hide AddWeight, Step, PopReady;
    match c
    case Put(x, v) => AddWeightValid(s, x, v);
    case Get =>
      StepMoves(s);
      var r := if s.ready.base == [] then Step(s) else s;
      if r.ready.base != [] { PopReadyValid(r); }
    case End(x) =>
  }

  ghost predicate TakenByGets<T(!new)>(s: State<T>, calls: seq<Call<T>>, w: int, e: Element<T>)
    requires Valid(s)
    decreases |calls|
  {
    calls != [] &&
    (ServeValid(s, calls[0]);
     (calls[0].Get? && s.ready.base == [] && Due(s, w, e)) || TakenByGets(Serve(s, calls[0]), calls[1..], w, e))
  }

  /** Along the calls the weights in use are positive and never add up to more than `total`,
      and item `x` is not raised. */
  ghost predicate Bounded<T(!new)>(s: State<T>, calls: seq<Call<T>>, total: nat, x: T)
    requires Valid(s)
    decreases |calls|
  {
    && (forall w | w in s.queues :: w > 0)
    && Total(SortedKeys(s.queues.Keys), |s.queues|) <= total
    && (calls == [] ||
        (ServeValid(s, calls[0]);
         && !(calls[0].Put? && calls[0].item == x && Raises(s, x, calls[0].weight))
         && Bounded(Serve(s, calls[0]), calls[1..], total, x)))
  }

  function Gets<T>(calls: seq<Call<T>>): nat {
    if calls == [] then 0 else Gets(calls[1..]) + if calls[0].Get? then 1 else 0
  }

  lemma GetKeepsPlace<T(!new)>(s: State<T>, w: int, e: Element<T>, p: nat, total: nat)
    requires Valid(s) && w >= 1 && WaitsWithin(s, w, e, p) && s.ready.base == [] && !Due(s, w, e)
    requires (forall v | v in s.queues :: v > 0) && Total(SortedKeys(s.queues.Keys), |s.queues|) <= total
    ensures p >= w && WaitsWithin(Serve(s, Get), w, e, p - w)
    ensures |Serve(s, Get).ready.base| + 1 <= total
  {
    StepAdds(s);
    hide Valid, Step, SortedKeys;
    StepAdvances(s, w, e, p);
    StepBounded(s);
    var k :| 0 <= k <= p && k < |s.queues[w].base| && s.queues[w].base[k] == e;
    var r := Step(s);
    assert |r.ready.base| > 0;
    SamePlace(r, PopReady(r), w, e, p - w);
  }

  lemma OneTimes(k: nat, w: int)
    requires k <= 1 && w >= 1
    ensures k * w <= w
  {
  }

  lemma OneBudgetLess(k: nat, total: nat, budget: nat, w: int, p: nat)
    requires k >= 1 && budget == (k - 1) * total && k * w >= p + 1 && p >= w >= 1
    ensures k >= 2 && budget >= total && budget - total == (k - 2) * total
  {
    if k <= 1 { OneTimes(k, w); }
    assert (k - 1) * total == (k - 2) * total + total;
  }

  lemma AddKeepsReady<T(!new)>(s: State<T>, x: T, v: int)
    ensures AddWeight(s, x, v).ready == s.ready
  {
  }

  /** The item a Get returns. */
  ghost function Result<T(!new)>(s: State<T>): Option<T>
    requires Valid(s)
  {
    var r := if s.ready.base == [] then Step(s) else s;
    if r.ready.base == [] then None else Some(r.ready.base[0].item)
  }

  /** Some Get of the calls returns x. */
  ghost predicate Returned<T(!new)>(s: State<T>, calls: seq<Call<T>>, x: T)
    requires Valid(s)
    decreases |calls|
  {
    calls != [] &&
    (ServeValid(s, calls[0]);
     (calls[0].Get? && Result(s) == Some(x)) || Returned(Serve(s, calls[0]), calls[1..], x))
  }

  /** Within `n` Gets the ready items and `k` steps of at most `total` items, but the last, are used up. */
  ghost predicate OnBudget<T(!new)>(s: State<T>, w: int, e: Element<T>, p: nat, k: nat, total: nat, n: int) {
    WaitsWithin(s, w, e, p) && k >= 1 && k * w >= p + 1 && |s.ready.base| + (k - 1) * total <= n
  }

  lemma StepGetAdvances<T(!new)>(s: State<T>, w: int, e: Element<T>, p: nat, k: nat, total: nat, n: int)
    requires Valid(s) && w >= 1 && OnBudget(s, w, e, p, k, total, n) && s.ready.base == [] && !Due(s, w, e)
    requires (forall v | v in s.queues :: v > 0) && Total(SortedKeys(s.queues.Keys), |s.queues|) <= total
    ensures p >= w && k >= 1 && OnBudget(Serve(s, Get), w, e, p - w, k - 1, total, n - 1)
  {
    hide Valid, WaitsWithin, Due, Serve, SortedKeys, Total;
    GetKeepsPlace(s, w, e, p, total);
    OneStepLess(k, w, p);
    OneBudgetLess(k, total, (k - 1) * total, w, p);
  }

  lemma PopGetAdvances<T(!new)>(s: State<T>, w: int, e: Element<T>, p: nat, k: nat, total: nat, n: int)
    requires Valid(s) && OnBudget(s, w, e, p, k, total, n) && s.ready.base != []
    ensures OnBudget(Serve(s, Get), w, e, p, k, total, n - 1)
  {
    hide Valid, WaitsWithin, Step;
    SamePlace(s, Serve(s, Get), w, e, p);
  }

  lemma OtherAdvances<T(!new)>(s: State<T>, c: Call<T>, w: int, e: Element<T>, p: nat, k: nat, total: nat, n: int)
    requires Valid(s) && OnBudget(s, w, e, p, k, total, n) && !c.Get?
    requires !(c.Put? && c.item == e.item && Raises(s, e.item, c.weight))
    ensures OnBudget(Serve(s, c), w, e, p, k, total, n)
  {
    hide Valid, WaitsWithin, AddWeight, Raises;
    match c {
      case Put(x, v) =>
        InsertKeepsPlace(s, x, v, w, e, p);
        AddKeepsReady(s, x, v);
      case End(x) =>
        SamePlace(s, Serve(s, c), w, e, p);
    }
  }

  /** What one call leaves of the bound, unless it is the Get whose step takes the item. */
  lemma CallAdvances<T(!new)>(s: State<T>, c: Call<T>, w: int, e: Element<T>, p: nat, k: nat, total: nat, n: int)
    returns (p': nat, k': nat)
    requires Valid(s) && w >= 1 && OnBudget(s, w, e, p, k, total, n)
    requires (forall v | v in s.queues :: v > 0) && Total(SortedKeys(s.queues.Keys), |s.queues|) <= total
    requires !(c.Put? && c.item == e.item && Raises(s, e.item, c.weight))
    requires !(c.Get? && s.ready.base == [] && Due(s, w, e))
    ensures OnBudget(Serve(s, c), w, e, p', k', total, if c.Get? then n - 1 else n)
  {
    hide Valid, OnBudget, Due, Serve, Raises, SortedKeys, Total;
    p', k' := p, k;
    if !c.Get? {
      OtherAdvances(s, c, w, e, p, k, total, n);
    } else if s.ready.base != [] {
      PopGetAdvances(s, w, e, p, k, total, n);
    } else {
      StepGetAdvances(s, w, e, p, k, total, n);
      p', k' := p - w, k - 1;
    }
  }

  lemma {:induction false} TakenWithinBudget<T(!new)>(
    s: State<T>, calls: seq<Call<T>>, w: int, e: Element<T>, p: nat, k: nat, total: nat)
    requires Valid(s) && w >= 1 && Bounded(s, calls, total, e.item)
    requires OnBudget(s, w, e, p, k, total, Gets(calls) - 1)
    ensures TakenByGets(s, calls, w, e)
    decreases |calls|
  {
    hide Valid, WaitsWithin, Due, Serve, Raises, SortedKeys, Total;
    BudgetLeft(s, w, e, p, k, total, Gets(calls) - 1);
    hide OnBudget;
    ServeValid(s, calls[0]);
    if !(calls[0].Get? && s.ready.base == [] && Due(s, w, e)) {
      var p', k' := CallAdvances(s, calls[0], w, e, p, k, total, Gets(calls) - 1);
      TakenWithinBudget(Serve(s, calls[0]), calls[1..], w, e, p', k', total);
    }
  }

  lemma BudgetLeft<T(!new)>(s: State<T>, w: int, e: Element<T>, p: nat, k: nat, total: nat, n: int)
    requires OnBudget(s, w, e, p, k, total, n)
    ensures n >= 0
  {
    NotNegative(k - 1, total);
  }

  /** When `k` steps reach position `p`, the item leaves its queue within as many Gets as there are
      ready items, plus `total` for each step but the last, plus one. */
  lemma TakenWithinGets<T(!new)>(
    s: State<T>, calls: seq<Call<T>>, w: int, e: Element<T>, p: nat, k: nat, total: nat)
    requires Valid(s) && w >= 1 && WaitsWithin(s, w, e, p) && Bounded(s, calls, total, e.item)
    requires k >= 1 && k * w >= p + 1
    requires Gets(calls) >= |s.ready.base| + (k - 1) * total + 1
    ensures TakenByGets(s, calls, w, e)
  {
    hide Valid, WaitsWithin, Bounded, TakenByGets;
    TakenWithinBudget(s, calls, w, e, p, k, total);
  }

  lemma NotNegative(a: nat, b: nat)
    ensures a * b >= 0
  {
  }

  /** A ready item at position q is returned by the q-th Get from now, counting from 0. */
  lemma {:induction false} ReadyReturned<T(!new)>(s: State<T>, calls: seq<Call<T>>, q: nat)
    requires Valid(s) && q < |s.ready.base| && Gets(calls) >= q + 1
    ensures Returned(s, calls, s.ready.base[q].item)
    decreases |calls|
  {
    hide Valid, AddWeight, Step;
    var t := Serve(s, calls[0]);
    ServeValid(s, calls[0]);
    match calls[0] {
      case Put(x, v) =>
        AddKeepsReady(s, x, v);
        ReadyReturned(t, calls[1..], q);
      case Get =>
        if q > 0 { ReadyReturned(t, calls[1..], q - 1); }
      case End(x) =>
        ReadyReturned(t, calls[1..], q);
    }
  }

  lemma {:induction false} InBatches<T>(queues: map<int, Chain<T>>, orders: seq<int>, i: nat, k: nat, x: T)
    requires k < i <= |orders| && (forall j | 0 <= j < |orders| :: orders[j] in queues)
    requires x in Batch(queues[orders[k]].Items(), orders[k])
    ensures x in Batches(queues, orders, i)
  {
    hide Batch;
    if k < i - 1 { InBatches(queues, orders, i - 1, k, x); }
  }

  lemma DueItem<T(!new)>(s: State<T>, w: int, e: Element<T>)
    requires Due(s, w, e)
    ensures e.item in Batch(s.queues[w].Items(), w)
  {
    var j :| 0 <= j < |Batch(s.queues[w].base, w)| && Batch(s.queues[w].base, w)[j] == e;
    assert Batch(s.queues[w].Items(), w)[j] == e.item;
  }

  /** A due item is among those the step makes ready, of which there are at most `total`. */
  lemma DueBecomesReady<T(!new)>(s: State<T>, w: int, e: Element<T>, total: nat) returns (q: nat)
    requires Valid(s) && s.ready.base == [] && Due(s, w, e)
    requires (forall v | v in s.queues :: v > 0) && Total(SortedKeys(s.queues.Keys), |s.queues|) <= total
    ensures q < |Step(s).ready.base| <= total && Step(s).ready.base[q].item == e.item
  {
    hide Step, Valid, Batch, Batches, Total, SortedKeys;
    OrdersListed(s);
    DueItem(s, w, e);
    var keys := SortedKeys(s.queues.Keys);
    var k :| 0 <= k < |keys| && keys[k] == w;
    InBatches(s.queues, keys, |keys|, k, e.item);
    StepMoves(s);
    StepBounded(s);
    assert Step(s).ready.Items() == StepBatch(s);
    q :| 0 <= q < |StepBatch(s)| && StepBatch(s)[q] == e.item;
  }

  lemma DueReturned<T(!new)>(s: State<T>, calls: seq<Call<T>>, w: int, e: Element<T>, total: nat)
    requires Valid(s) && s.ready.base == [] && Due(s, w, e)
    requires (forall v | v in s.queues :: v > 0) && Total(SortedKeys(s.queues.Keys), |s.queues|) <= total
    requires calls != [] && calls[0].Get? && Gets(calls) >= total
    ensures Returned(s, calls, e.item)
  {
    hide Step, Valid, Due, Total, SortedKeys;
    var q := DueBecomesReady(s, w, e, total);
    ServeValid(s, Get);
    if q > 0 { ReadyReturned(Serve(s, Get), calls[1..], q - 1); }
  }

  lemma {:induction false} ServedWithinBudget<T(!new)>(
    s: State<T>, calls: seq<Call<T>>, w: int, e: Element<T>, p: nat, k: nat, total: nat)
    requires Valid(s) && w >= 1 && Bounded(s, calls, total, e.item) && total >= 1
    requires OnBudget(s, w, e, p, k, total, Gets(calls) - total)
    ensures Returned(s, calls, e.item)
    decreases |calls|
  {
    hide Valid, WaitsWithin, Due, Serve, Raises, SortedKeys, Total, Result;
    BudgetLeft(s, w, e, p, k, total, Gets(calls) - total);
    hide OnBudget;
    ServeValid(s, calls[0]);
    if calls[0].Get? && s.ready.base == [] && Due(s, w, e) {
      DueReturned(s, calls, w, e, total);
    } else {
      var p', k' := CallAdvances(s, calls[0], w, e, p, k, total, Gets(calls) - total);
      ServedWithinBudget(Serve(s, calls[0]), calls[1..], w, e, p', k', total);
    }
  }

  lemma SomeWeight<T(!new)>(s: State<T>, w: int, e: Element<T>, p: nat, total: nat)
    requires Valid(s) && WaitsWithin(s, w, e, p)
    requires (forall v | v in s.queues :: v > 0) && Total(SortedKeys(s.queues.Keys), |s.queues|) <= total
    ensures total >= 1
  {
    hide Step, SortedKeys, Total;
    StepAdds(s);
    StepBounded(s);
  }

  /** Service bound: when `k` steps reach position `p`, some Get returns the item within as many Gets as
      there are ready items, plus `total` for each of those steps. */
  lemma ServedWithinGets<T(!new)>(
    s: State<T>, calls: seq<Call<T>>, w: int, e: Element<T>, p: nat, k: nat, total: nat)
    requires Valid(s) && w >= 1 && WaitsWithin(s, w, e, p) && Bounded(s, calls, total, e.item)
    requires k >= 1 && k * w >= p + 1
    requires Gets(calls) >= |s.ready.base| + k * total
    ensures Returned(s, calls, e.item)
  {
    hide Valid, WaitsWithin, Returned, Total, SortedKeys;
    SomeWeight(s, w, e, p, total);
    hide Bounded;
    assert k * total == (k - 1) * total + total;
    ServedWithinBudget(s, calls, w, e, p, k, total);
  }
}
