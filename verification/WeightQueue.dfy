/** The weighted work queue of internal/queue/weight_queue.go: its state and its critical
    sections as functions on that state. WeightQueueObject carries them out in place. */
module WeightQueue {
  import opened Collections
  import opened LinkedQueue
  import opened Sorting

  /** What `index` holds for an item: its done channel, the weight it was first added with,
      and whether a step has already moved it to the ready queue. */
  datatype Entry = Entry(done: nat, weight: int, soon: bool)

  /** Channels are numbered as they are made; `closed` lists them in the order they are closed. */
  datatype State<T(==)> = State(
    ready: Chain<T>,
    queues: map<int, Chain<T>>,
    orders: seq<int>,
    index: map<T, Entry>,
    issued: nat,
    closed: seq<nat>)

  function New<T(==)>(): State<T> { State(Empty(), map[], [], map[], 0, []) }

  // ---- AddWeight ----

  function Enqueue<T(==)>(s: State<T>, item: T, weight: int): State<T> {
    var q := if weight in s.queues then s.queues[weight] else Empty();
    s.(queues := s.queues[weight := q.Add(item)])
  }

  function Unqueue<T(==)>(s: State<T>, item: T, weight: int): State<T> {
    if weight in s.queues then s.(queues := s.queues[weight := s.queues[weight].Remove(item)]) else s
  }

  function NonZero(weight: int): int { if weight == 0 then 1 else weight }

  /** The guard of the branch that moves a waiting item to a heavier queue. */
  predicate Raises<T(==)>(s: State<T>, item: T, weight: int) {
    item in s.index && !s.index[item].soon && s.index[item].weight < NonZero(weight)
  }

  /** The raise does not store the new weight in the index, as in the program. */
  function AddWeight<T(==)>(s: State<T>, item: T, weight: int): State<T> {
    if item !in s.index then
      var entry := Entry(s.issued, NonZero(weight), false);
      Enqueue(s.(index := s.index[item := entry], issued := s.issued + 1), item, NonZero(weight))
    else if Raises(s, item, weight) then
      Enqueue(Unqueue(s, item, s.index[item].weight), item, NonZero(weight))
    else s
  }

  function WaitingAt<T(==)>(s: State<T>, weight: int): seq<T> {
    if weight in s.queues then s.queues[weight].Items() else []
  }

  /** What AddWeight comes to, case by case. Weight 0 stands for 1. An item that is already on its way or waits
      under at least that weight stays where it is; one that waits under less moves, by one Remove, to the end of
      the heavier queue; a new one goes to the end of its queue. No other queue changes. */
  lemma AddWeightOutcome<T(!new)>(s: State<T>, x: T, weight: int)
    requires Valid(s)
    ensures
      var v := if weight == 0 then 1 else weight;
      var r := AddWeight(s, x, weight);
      if x in s.index && (s.index[x].soon || s.index[x].weight >= v) then
        r == s
      else if x in s.index then
        var u := s.index[x].weight;
        && u in s.queues && r == s.(queues := r.queues) && r.queues.Keys == s.queues.Keys + {v}
        && r.queues[u] == s.queues[u].Remove(x)
        && WaitingAt(r, v) == WaitingAt(s, v) + [x]
        && forall w | w in s.queues && w != u && w != v :: r.queues[w] == s.queues[w]
      else
        && r == s.(queues := r.queues, index := s.index[x := Entry(s.issued, v, false)], issued := s.issued + 1)
        && r.queues.Keys == s.queues.Keys + {v}
        && WaitingAt(r, v) == WaitingAt(s, v) + [x]
        && forall w | w in s.queues && w != v :: r.queues[w] == s.queues[w]
  {
    hide Valid, Enqueue, WaitingAt, Chain.Remove;
    var v := if weight == 0 then 1 else weight;
    if x in s.index {
      EntriesListed(s, x);
      var t := Unqueue(s, x, s.index[x].weight);
      EnqueueOutcome(t, x, v);
      if s.index[x].weight < v { SameWaiting(s, t, v); }
    } else {
      var t := s.(index := s.index[x := Entry(s.issued, v, false)], issued := s.issued + 1);
      EnqueueOutcome(t, x, v);
      SameWaiting(s, t, v);
    }
  }

  lemma EnqueueOutcome<T>(s: State<T>, x: T, v: int)
    ensures
      var r := Enqueue(s, x, v);
      && r == s.(queues := r.queues) && r.queues.Keys == s.queues.Keys + {v}
      && WaitingAt(r, v) == WaitingAt(s, v) + [x]
      && forall w | w in s.queues && w != v :: r.queues[w] == s.queues[w]
  {
    hide Chain.Items, Chain.Valid;
    EmptyItems<T>();
    ItemsAdd(if v in s.queues then s.queues[v] else Empty(), x);
  }

  lemma SameWaiting<T>(s: State<T>, t: State<T>, v: int)
    requires v in s.queues <==> v in t.queues
    requires v in s.queues ==> t.queues[v] == s.queues[v]
    ensures WaitingAt(t, v) == WaitingAt(s, v)
  {
  }

  lemma EmptyItems<T>()
    ensures Empty<T>().Items() == []
  {
  }

  // ---- step ----

  function MoveOne<T(==)>(s: State<T>, weight: int): (r: State<T>)
    requires weight in s.queues && s.queues[weight].base != []
  {
    var t := s.queues[weight].base[0].item;
    s.(queues := s.queues[weight := s.queues[weight].Get()],
       index := if t in s.index then s.index[t := s.index[t].(soon := true)] else s.index,
       ready := s.ready.Add(t))
  }

  /** The inner loop: move items until `left` of them moved or the queue is empty. A negative
      `left` never reaches 0, so it empties the queue. */
  function Drain<T(==)>(s: State<T>, weight: int, left: int): (r: State<T>)
    requires weight in s.queues
    ensures r.queues.Keys == s.queues.Keys && r.orders == s.orders
    decreases |s.queues[weight].base|
  {
    if left == 0 || s.queues[weight].base == [] then s
    else Drain(MoveOne(s, weight), weight, left - 1)
  }

  lemma DrainUnfolds<T>(s: State<T>, weight: int, left: int)
    requires weight in s.queues
    ensures Drain(s, weight, left) ==
      if left == 0 || s.queues[weight].base == [] then s else Drain(MoveOne(s, weight), weight, left - 1)
  {
  }

  lemma MoveOneCounts<T>(s: State<T>, weight: int)
    requires weight in s.queues && s.queues[weight].base != []
    ensures
      var n := MoveOne(s, weight);
      && |n.ready.base| == |s.ready.base| + 1 && n.queues.Keys == s.queues.Keys
      && |n.queues[weight].base| == |s.queues[weight].base| - 1
  {
  }

  /** The outer loop over the first `i` orders, from the heaviest down. */
  function Sweep<T(==)>(s: State<T>, i: nat): (r: State<T>)
    requires i <= |s.orders| && forall k | 0 <= k < |s.orders| :: s.orders[k] in s.queues
    decreases i
  {
    if i == 0 then s else Sweep(Drain(s, s.orders[i - 1], s.orders[i - 1]), i - 1)
  }

  /** The staleness test on `orders` compares lengths only. */
  function Refresh<T(==)>(s: State<T>): State<T> {
    if |s.orders| != |s.queues| then s.(orders := SortedKeys(s.queues.Keys)) else s
  }

  function Step<T(==)>(s: State<T>): State<T>
    requires forall k | 0 <= k < |s.orders| :: s.orders[k] in s.queues
  {
    Sweep(Refresh(s), |Refresh(s).orders|)
  }

  // ---- get and the finish closure ----

  function PopReady<T(==)>(s: State<T>): State<T>
    requires s.ready.base != []
  {
    s.(ready := s.ready.Get())
  }

  function Finish<T(==)>(s: State<T>, item: T): State<T> {
    if item in s.index then s.(closed := s.closed + [s.index[item].done], index := s.index - {item}) else s
  }

  // ---- the representation invariant ----

  ghost predicate Valid<T(!new)>(s: State<T>) {
    && s.ready.Valid()
    && (forall w | w in s.queues :: s.queues[w].Valid())
    && 0 !in s.queues
    && Ascending(s.orders) && (forall k | 0 <= k < |s.orders| :: s.orders[k] in s.queues)
    && (forall x | x in s.index :: s.index[x].weight in s.queues)
  }

  lemma OrdersListed<T(!new)>(s: State<T>)
    requires Valid(s)
    ensures Ascending(s.orders) && forall k | 0 <= k < |s.orders| :: s.orders[k] in s.queues
  {
  }

  lemma EntriesListed<T(!new)>(s: State<T>, x: T)
    requires Valid(s) && x in s.index
    ensures s.index[x].weight in s.queues
  {
  }

  /** A step looks up no weight without a queue, whether or not it rebuilds the orders. */
  lemma QueuesExist<T(!new)>(s: State<T>)
    requires Valid(s)
    ensures forall k | 0 <= k < |Refresh(s).orders| :: Refresh(s).orders[k] in s.queues
  {
    hide SortedKeys;
  }

  lemma SweepUnfolds<T(!new)>(s: State<T>, i: nat)
    requires i <= |s.orders| && forall k | 0 <= k < |s.orders| :: s.orders[k] in s.queues
    ensures Sweep(s, i) == if i == 0 then s else Sweep(Drain(s, s.orders[i - 1], s.orders[i - 1]), i - 1)
  {
  }

  lemma EnqueueValid<T(!new)>(s: State<T>, item: T, weight: int)
    requires Valid(s) && weight != 0
    ensures Valid(Enqueue(s, item, weight))
  {
    ItemsAdd(if weight in s.queues then s.queues[weight] else Empty(), item);
  }

  lemma AddWeightValid<T(!new)>(s: State<T>, item: T, weight: int)
    requires Valid(s)
    ensures Valid(AddWeight(s, item, weight))
  {
    var w := NonZero(weight);
    if item !in s.index {
      var s1 := Enqueue(s, item, w);
      EnqueueValid(s, item, w);
      assert AddWeight(s, item, weight).queues == s1.queues;
    } else if Raises(s, item, weight) {
      RemoveKeepsValid(s.queues[s.index[item].weight], item);
      EnqueueValid(Unqueue(s, item, s.index[item].weight), item, w);
    }
  }

  lemma PopReadyValid<T(!new)>(s: State<T>)
    requires Valid(s) && s.ready.base != []
    ensures Valid(PopReady(s))
  {
    ItemsGet(s.ready);
  }

  lemma MoveOneValid<T(!new)>(s: State<T>, weight: int)
    requires Valid(s) && weight in s.queues && s.queues[weight].base != []
    ensures Valid(MoveOne(s, weight))
  {
    ItemsGet(s.queues[weight]);
    ItemsAdd(s.ready, s.queues[weight].base[0].item);
  }

  lemma {:induction false} DrainValid<T(!new)>(s: State<T>, weight: int, left: int)
    requires Valid(s) && weight in s.queues
    ensures Valid(Drain(s, weight, left))
    decreases |s.queues[weight].base|
  {
    if left != 0 && s.queues[weight].base != [] {
      MoveOneValid(s, weight);
      DrainValid(MoveOne(s, weight), weight, left - 1);
    }
  }

  lemma {:induction false} SweepValid<T(!new)>(s: State<T>, i: nat)
    requires Valid(s) && i <= |s.orders|
    ensures Valid(Sweep(s, i))
    decreases i
  {
    hide Valid, Drain;
    if i > 0 {
      OrdersListed(s);
      DrainValid(s, s.orders[i - 1], s.orders[i - 1]);
      SweepValid(Drain(s, s.orders[i - 1], s.orders[i - 1]), i - 1);
    }
  }

  // ---- the staleness test is exact ----

  /** Comparing lengths is enough: keys are only ever added, so after the test
      `orders` is the sorted key set whether or not it was rebuilt. */
  lemma RefreshExact<T(!new)>(s: State<T>)
    requires Valid(s)
    ensures Refresh(s).orders == SortedKeys(s.queues.Keys)
    ensures Valid(Refresh(s))
  {
    hide SortedKeys;
    if |s.orders| == |s.queues| {
      AscendingCount(s.orders);
      FullSubset((set k | k in s.orders), s.queues.Keys);
      assert forall k :: k in s.orders <==> k in (set k | k in s.orders);
      AscendingUnique(s.orders, SortedKeys(s.queues.Keys));
    }
  }

  // ---- what a step does ----

  /** The part of a queue of the given weight that one step takes: its first `weight`
      items, or all of them when there are fewer or the weight is negative. */
  function Batch<T>(items: seq<T>, weight: int): seq<T> {
    if 0 <= weight < |items| then items[..weight] else items
  }

  function AfterBatch<T>(items: seq<T>, weight: int): seq<T> {
    if 0 <= weight < |items| then items[weight..] else []
  }

  /** The batches of the first `i` orders, the heaviest first. */
  function Batches<T(==)>(queues: map<int, Chain<T>>, orders: seq<int>, i: nat): seq<T>
    requires i <= |orders| && forall k | 0 <= k < |orders| :: orders[k] in queues
  {
    if i == 0 then []
    else Batch(queues[orders[i - 1]].Items(), orders[i - 1]) + Batches(queues, orders, i - 1)
  }

  /** `r` is `s` after the items in `moved` were appended to the ready queue. */
  ghost predicate Moved<T(!new)>(s: State<T>, r: State<T>, moved: seq<T>) {
    && r.ready.Items() == s.ready.Items() + moved
    && r.queues.Keys == s.queues.Keys && r.orders == s.orders
    && r.issued == s.issued && r.closed == s.closed
    && r.index.Keys == s.index.Keys
    && (forall x | x in s.index :: r.index[x] == s.index[x].(soon := s.index[x].soon || x in moved))
  }

  lemma MovedTwice<T(!new)>(s: State<T>, d: State<T>, r: State<T>, b: seq<T>, c: seq<T>)
    requires Moved(s, d, b) && Moved(d, r, c)
    ensures Moved(s, r, b + c)
  {
    assert s.ready.Items() + b + c == s.ready.Items() + (b + c);
  }

  lemma MoveOneMoves<T(!new)>(s: State<T>, weight: int)
    requires weight in s.queues && s.queues[weight].base != []
    ensures
      var n, c := MoveOne(s, weight), s.queues[weight];
      && Moved(s, n, [c.base[0].item])
      && n.queues[weight].base == c.base[1..]
      && c.Items() == [c.base[0].item] + n.queues[weight].Items()
      && forall v | v in s.queues && v != weight :: n.queues[v] == s.queues[v]
  {
    ItemsGet(s.queues[weight]);
    ItemsAdd(s.ready, s.queues[weight].base[0].item);
  }

  lemma BatchFirst<T>(t: T, rest: seq<T>, left: int)
    requires left != 0
    ensures Batch([t] + rest, left) == [t] + Batch(rest, left - 1)
    ensures AfterBatch([t] + rest, left) == AfterBatch(rest, left - 1)
  {
  }

  lemma {:induction false} DrainMoves<T(!new)>(s: State<T>, weight: int, left: int)
    requires weight in s.queues
    ensures Moved(s, Drain(s, weight, left), Batch(s.queues[weight].Items(), left))
    ensures Drain(s, weight, left).queues[weight].base == AfterBatch(s.queues[weight].base, left)
    ensures forall v | v in s.queues && v != weight :: Drain(s, weight, left).queues[v] == s.queues[v]
    decreases |s.queues[weight].base|
  {
    var c := s.queues[weight];
    if left == 0 || c.base == [] {
    } else {
      hide Moved, MoveOne, Batch, AfterBatch, Chain.Items;
      var n := MoveOne(s, weight);
      MoveOneMoves(s, weight);
      DrainMoves(n, weight, left - 1);
      var first, rest := c.base[0].item, n.queues[weight];
      MovedTwice(s, n, Drain(n, weight, left - 1), [first], Batch(rest.Items(), left - 1));
      BatchFirst(first, rest.Items(), left);
      assert c.base == [c.base[0]] + rest.base;
      BatchFirst(c.base[0], rest.base, left);
    }
  }

  lemma {:induction false} BatchesDepend<T>(q: map<int, Chain<T>>, r: map<int, Chain<T>>, orders: seq<int>, i: nat)
    requires i <= |orders| && forall k | 0 <= k < |orders| :: orders[k] in q && orders[k] in r
    requires forall k | 0 <= k < i :: q[orders[k]] == r[orders[k]]
    ensures Batches(q, orders, i) == Batches(r, orders, i)
  {
    if i > 0 { BatchesDepend(q, r, orders, i - 1); }
  }

  lemma {:induction false} SweepMoves<T(!new)>(s: State<T>, i: nat)
    requires i <= |s.orders| && Ascending(s.orders) && forall k | 0 <= k < |s.orders| :: s.orders[k] in s.queues
    ensures Moved(s, Sweep(s, i), Batches(s.queues, s.orders, i))
    decreases i
  {
    hide Drain;
    if i > 0 {
      var w := s.orders[i - 1];
      var d := Drain(s, w, w);
      DrainMoves(s, w, w);
      SweepMoves(d, i - 1);
      BatchesDepend(d.queues, s.queues, s.orders, i - 1);
      MovedTwice(s, d, Sweep(d, i - 1), Batch(s.queues[w].Items(), w), Batches(s.queues, s.orders, i - 1));
    }
  }

  lemma {:induction false} SweepLeaves<T(!new)>(s: State<T>, i: nat, v: int)
    requires i <= |s.orders| && Ascending(s.orders) && v in s.queues
    requires forall k | 0 <= k < |s.orders| :: s.orders[k] in s.queues
    ensures Sweep(s, i).queues.Keys == s.queues.Keys
    ensures
      var before := s.queues[v].base;
      Sweep(s, i).queues[v].base == if v in s.orders[..i] then AfterBatch(before, v) else before
    decreases i
  {
    hide Drain, Moved, Batch, AfterBatch, Chain.Items;
    if i > 0 {
      var w := s.orders[i - 1];
      DrainMoves(s, w, w);
      SweepLeaves(Drain(s, w, w), i - 1, v);
      assert s.orders[..i] == s.orders[..i - 1] + [w];
    }
  }

  /** Everything one step hands out: the batch of every weight, the heaviest first. */
  function StepBatch<T(==)>(s: State<T>): seq<T> {
    var keys := SortedKeys(s.queues.Keys);
    Batches(s.queues, keys, |keys|)
  }

  /** A step appends its batches to the ready queue in FIFO order, marks the moved items as
      `soon`, sorts `orders`, and changes nothing else outside the weight queues. */
  lemma StepMoves<T(!new)>(s: State<T>)
    requires Valid(s)
    ensures Valid(Step(s))
    ensures Moved(s.(orders := SortedKeys(s.queues.Keys)), Step(s), StepBatch(s))
  {
    hide Sweep, SortedKeys, Batches, Drain;
    RefreshExact(s);
    var r := Refresh(s);
    SweepMoves(r, |r.orders|);
    SweepValid(r, |r.orders|);
  }

  /** A step leaves in each queue exactly what its batch did not take. */
  lemma StepLeaves<T(!new)>(s: State<T>, w: int)
    requires Valid(s) && w in s.queues
    ensures Step(s).queues.Keys == s.queues.Keys
    ensures Step(s).queues[w].base == AfterBatch(s.queues[w].base, w)
    ensures Step(s).queues[w].Items() == AfterBatch(s.queues[w].Items(), w)
  {
    hide Sweep, SortedKeys, Batches, Batch, AfterBatch, Drain, Chain.Items, Chain.Valid;
    RefreshExact(s);
    OrdersListed(Refresh(s));
    var r := Refresh(s);
    assert r.queues == s.queues && w in r.orders;
    hide Valid, Refresh;
    SweepLeaves(r, |r.orders|, w);
    assert r.orders[..|r.orders|] == r.orders;
    BatchItems(s.queues[w], Step(s).queues[w], w);
  }

  lemma BatchItems<T>(c: Chain<T>, d: Chain<T>, w: int)
    requires d.base == AfterBatch(c.base, w)
    ensures d.Items() == AfterBatch(c.Items(), w)
  {
  }

  // ---- where copies of items are ----

  ghost function Contents<T>(queues: map<int, Chain<T>>): map<int, seq<T>> {
    map w | w in queues :: queues[w].Items()
  }

  ghost function WaitBag<T>(queues: map<int, Chain<T>>): multiset<T> { Bag(Contents(queues)) }

  lemma WaitBagUpdate<T>(queues: map<int, Chain<T>>, w: int, c: Chain<T>)
    ensures WaitBag(queues[w := c]) + multiset(if w in queues then queues[w].Items() else [])
         == WaitBag(queues) + multiset(c.Items())
  {
    BagUpdate(Contents(queues), w, c.Items());
    assert Contents(queues[w := c]) == Contents(queues)[w := c.Items()];
  }

  lemma EnqueueBag<T>(s: State<T>, item: T, weight: int)
    ensures WaitBag(Enqueue(s, item, weight).queues) == WaitBag(s.queues) + multiset{item}
  {
    var q := if weight in s.queues then s.queues[weight] else Empty();
    WaitBagUpdate(s.queues, weight, q.Add(item));
    ItemsAdd(q, item);
    assert multiset(q.Add(item).Items()) == multiset(q.Items()) + multiset{item};
    BagCancel(WaitBag(Enqueue(s, item, weight).queues), WaitBag(s.queues) + multiset{item}, multiset(q.Items()));
  }

  lemma UnqueueBag<T>(s: State<T>, item: T, weight: int)
    requires weight in s.queues && s.queues[weight].Valid()
    ensures
      var removed := if item in s.queues[weight].index then multiset{item} else multiset{};
      WaitBag(Unqueue(s, item, weight).queues) + removed == WaitBag(s.queues)
  {
    var q := s.queues[weight];
    WaitBagUpdate(s.queues, weight, q.Remove(item));
    ItemsRemove(q, item);
    var b := if item in q.index then multiset{item} else multiset{};
    BagCancel(WaitBag(Unqueue(s, item, weight).queues) + b, WaitBag(s.queues), multiset(q.Remove(item).Items()));
  }

  /** Moving an item conserves the multiset of waiting and ready copies. */
  lemma MoveOneBag<T>(s: State<T>, weight: int)
    requires weight in s.queues && s.queues[weight].base != []
    ensures var t := s.queues[weight].base[0].item; var r := MoveOne(s, weight);
      && WaitBag(r.queues) + multiset{t} == WaitBag(s.queues)
      && multiset(r.ready.Items()) == multiset(s.ready.Items()) + multiset{t}
  {
    var q := s.queues[weight];
    var t := q.base[0].item;
    WaitBagUpdate(s.queues, weight, q.Get());
    ItemsGet(q);
    ItemsAdd(s.ready, t);
    assert multiset(q.Items()) == multiset{t} + multiset(q.Get().Items());
    BagCancel(WaitBag(MoveOne(s, weight).queues) + multiset{t}, WaitBag(s.queues), multiset(q.Get().Items()));
  }

  ghost function Queued<T>(s: State<T>): multiset<T> { WaitBag(s.queues) + multiset(s.ready.Items()) }

  lemma {:induction false} DrainConserves<T>(s: State<T>, weight: int, left: int)
    requires weight in s.queues
    ensures Queued(Drain(s, weight, left)) == Queued(s)
    decreases |s.queues[weight].base|
  {
    if left != 0 && s.queues[weight].base != [] {
      MoveOneBag(s, weight);
      DrainConserves(MoveOne(s, weight), weight, left - 1);
    }
  }

  lemma {:induction false} SweepConserves<T>(s: State<T>, i: nat)
    requires i <= |s.orders| && forall k | 0 <= k < |s.orders| :: s.orders[k] in s.queues
    ensures Queued(Sweep(s, i)) == Queued(s)
    decreases i
  {
    if i > 0 {
      DrainConserves(s, s.orders[i - 1], s.orders[i - 1]);
      SweepConserves(Drain(s, s.orders[i - 1], s.orders[i - 1]), i - 1);
    }
  }

  /** No step loses or duplicates a queued copy, whatever the weights. */
  lemma StepConserves<T>(s: State<T>)
    requires forall k | 0 <= k < |s.orders| :: s.orders[k] in s.queues
    ensures Queued(Step(s)) == Queued(s)
  {
    SweepConserves(Refresh(s), |Refresh(s).orders|);
  }

  /** A step reports progress exactly when some item is waiting, because no weight key is 0. */
  lemma StepAdds<T(!new)>(s: State<T>)
    requires Valid(s)
    ensures |Step(s).ready.base| > |s.ready.base| <==> exists w :: w in s.queues && s.queues[w].base != []
  {
    hide Sweep, Step, Batches, Drain;
    StepMoves(s);
    var keys := SortedKeys(s.queues.Keys);
    BatchesEmpty(s.queues, keys, |keys|);
    assert |Step(s).ready.Items()| == |s.ready.Items()| + |StepBatch(s)|;
    if w :| w in s.queues && s.queues[w].base != [] {
      var k :| 0 <= k < |keys| && keys[k] == w;
    }
  }

  lemma BatchEmpty<T>(c: Chain<T>, weight: int)
    requires weight != 0
    ensures Batch(c.Items(), weight) == [] <==> c.base == []
  {
  }

  lemma {:induction false} BatchesEmpty<T>(queues: map<int, Chain<T>>, orders: seq<int>, i: nat)
    requires i <= |orders| && 0 !in orders && forall k | 0 <= k < |orders| :: orders[k] in queues
    ensures Batches(queues, orders, i) == [] <==> forall k | 0 <= k < i :: queues[orders[k]].base == []
  {
    hide Batch, Chain.Items;
    if i > 0 {
      BatchesEmpty(queues, orders, i - 1);
      BatchEmpty(queues[orders[i - 1]], orders[i - 1]);
    }
  }
}
