/** A bound on waiting: an item that is not itself raised leaves its queue within a number
    of steps fixed by its position and its queue's weight, whatever else is added. */
module WeightQueueStarvation {
  import opened Collections
  import opened LinkedQueue
  import opened Sorting
  import opened WeightQueue

  /** The critical sections of the queue, in the order in which they take the lock. By
      WeightQueueFairness.StepIsAtomic a step counts as one of them. */
  datatype Section<T> = Insert(item: T, weight: int) | StepAll | Pop | Done(item: T)

  ghost function Do<T(!new)>(s: State<T>, c: Section<T>): State<T>
    requires Valid(s)
  {
    match c
    case Insert(x, v) => AddWeight(s, x, v)
    case StepAll => Step(s)
    case Pop => if s.ready.base == [] then s else PopReady(s)
    case Done(x) => Finish(s, x)
  }

  lemma DoValid<T(!new)>(s: State<T>, c: Section<T>)
    requires Valid(s)
    ensures Valid(Do(s, c))
  {
    hide AddWeight, Step, PopReady;
    match c
    case Insert(x, v) => AddWeightValid(s, x, v);
    case StepAll => StepMoves(s);
    case Pop => if s.ready.base != [] { PopReadyValid(s); }
    case Done(x) =>
  }

  /** Element `e` of the queue of weight `w` is among those the next step takes. */
  ghost predicate Due<T(!new)>(s: State<T>, w: int, e: Element<T>) {
    w in s.queues && e in Batch(s.queues[w].base, w)
  }

  /** Some step of the run takes `e` out of the queue of weight `w` to the ready queue. */
  ghost predicate Taken<T(!new)>(s: State<T>, run: seq<Section<T>>, w: int, e: Element<T>)
    requires Valid(s)
    decreases |run|
  {
    run != [] &&
    (DoValid(s, run[0]);
     (run[0].StepAll? && Due(s, w, e)) || Taken(Do(s, run[0]), run[1..], w, e))
  }

  /** No section of the run raises item `x`. */
  ghost predicate NeverRaises<T(!new)>(s: State<T>, run: seq<Section<T>>, x: T)
    requires Valid(s)
    decreases |run|
  {
    run == [] ||
    (DoValid(s, run[0]);
     !(run[0].Insert? && run[0].item == x && Raises(s, x, run[0].weight)) && NeverRaises(Do(s, run[0]), run[1..], x))
  }

  function Steps<T>(run: seq<Section<T>>): nat {
    if run == [] then 0 else Steps(run[1..]) + if run[0].StepAll? then 1 else 0
  }

  /** `e` waits in the queue of weight `w` with at most `p` elements before it. */
  ghost predicate WaitsWithin<T(!new)>(s: State<T>, w: int, e: Element<T>, p: nat) {
    w in s.queues && exists k :: 0 <= k <= p && k < |s.queues[w].base| && s.queues[w].base[k] == e
  }

  lemma InsertKeepsPlace<T(!new)>(s: State<T>, x: T, v: int, w: int, e: Element<T>, p: nat)
    requires Valid(s) && WaitsWithin(s, w, e, p) && !(x == e.item && Raises(s, x, v))
    ensures WaitsWithin(AddWeight(s, x, v), w, e, p)
  {
    var k :| 0 <= k <= p && k < |s.queues[w].base| && s.queues[w].base[k] == e;
    if x in s.index && Raises(s, x, v) {
      UnqueueKeepsPlace(s, x, s.index[x].weight, w, e, p);
      EnqueueKeepsPlace(Unqueue(s, x, s.index[x].weight), x, NonZero(v), w, e, p);
    } else if x !in s.index {
      EnqueueKeepsPlace(s, x, NonZero(v), w, e, p);
      assert AddWeight(s, x, v).queues == Enqueue(s, x, NonZero(v)).queues;
    }
  }

  lemma UnqueueKeepsPlace<T(!new)>(s: State<T>, x: T, u: int, w: int, e: Element<T>, p: nat)
    requires Valid(s) && WaitsWithin(s, w, e, p) && x != e.item
    ensures WaitsWithin(Unqueue(s, x, u), w, e, p)
  {
    var k :| 0 <= k <= p && k < |s.queues[w].base| && s.queues[w].base[k] == e;
    var s1 := Unqueue(s, x, u);
    if u == w && x in s.queues[w].index {
      var d := s.queues[w].index[x];
      assert s.queues[w].Valid();
      var j := WithoutCuts(s.queues[w].base, d);
      assert s1.queues[w].base[if k < j then k else k - 1] == e;
    } else {
      assert s1.queues[w].base[k] == e;
    }
  }

  lemma EnqueueKeepsPlace<T(!new)>(s: State<T>, x: T, v: int, w: int, e: Element<T>, p: nat)
    requires WaitsWithin(s, w, e, p)
    ensures WaitsWithin(Enqueue(s, x, v), w, e, p)
  {
    var k :| 0 <= k <= p && k < |s.queues[w].base| && s.queues[w].base[k] == e;
    assert Enqueue(s, x, v).queues[w].base[k] == e;
  }

  /** A step takes `e` if it is among the first `w`, and otherwise moves it up by `w`. */
  lemma StepAdvances<T(!new)>(s: State<T>, w: int, e: Element<T>, p: nat)
    requires Valid(s) && w >= 1 && WaitsWithin(s, w, e, p)
    ensures p < w ==> Due(s, w, e)
    ensures Due(s, w, e) || (p >= w && WaitsWithin(Step(s), w, e, p - w))
  {
    var k :| 0 <= k <= p && k < |s.queues[w].base| && s.queues[w].base[k] == e;
    var b := s.queues[w].base;
    hide Valid, Step;
    StepLeaves(s, w);
    if k < w {
      assert Batch(b, w)[k] == e;
    } else {
      assert AfterBatch(b, w)[k - w] == e;
    }
  }

  /** Starvation bound: an item at position `p` of the queue of weight `w` is taken within any
      run that holds at least (p+1)/w steps, rounded up, provided the run never raises that
      item itself; what the run adds, at whatever weight, makes no difference. */
  lemma {:induction false} TakenWithin<T(!new)>(s: State<T>, run: seq<Section<T>>, w: int, e: Element<T>, p: nat)
    requires Valid(s) && w >= 1 && WaitsWithin(s, w, e, p) && NeverRaises(s, run, e.item)
    requires Steps(run) * w >= p + 1
    ensures Taken(s, run, w, e)
    decreases |run|
  {
    hide Valid, WaitsWithin, Due, AddWeight, Step, Raises;
    if run != [] {
      var c, t := run[0], Do(s, run[0]);
      DoValid(s, c);
      match c {
        case Insert(x, v) =>
          InsertKeepsPlace(s, x, v, w, e, p);
          TakenWithin(t, run[1..], w, e, p);
        case StepAll =>
          StepAdvances(s, w, e, p);
          if !Due(s, w, e) {
            OneStepLess(Steps(run), w, p);
            TakenWithin(t, run[1..], w, e, p - w);
          }
        case _ =>
          SamePlace(s, t, w, e, p);
          TakenWithin(t, run[1..], w, e, p);
      }
    }
  }

  lemma SamePlace<T(!new)>(s: State<T>, t: State<T>, w: int, e: Element<T>, p: nat)
    requires WaitsWithin(s, w, e, p) && t.queues == s.queues
    ensures WaitsWithin(t, w, e, p)
  {
  }

  lemma OneStepLess(n: nat, w: int, p: nat)
    requires n * w >= p + 1 && w >= 1 && p >= w
    ensures n >= 1 && (n - 1) * w >= p - w + 1
  {
  }

  // ---- how much one step moves, and the bound in Get calls ----

  function Total(orders: seq<int>, i: nat): int
    requires i <= |orders|
  {
    if i == 0 then 0 else orders[i - 1] + Total(orders, i - 1)
  }

  lemma {:induction false} BatchesBounded<T>(queues: map<int, Chain<T>>, orders: seq<int>, i: nat)
    requires i <= |orders| && forall k | 0 <= k < |orders| :: orders[k] in queues && orders[k] > 0
    ensures |Batches(queues, orders, i)| <= Total(orders, i)
  {
    if i > 0 { BatchesBounded(queues, orders, i - 1); }
  }

  /** With positive weights a step moves at most as many items as the weights in use add up to. */
  lemma StepBounded<T(!new)>(s: State<T>)
    requires Valid(s) && forall w | w in s.queues :: w > 0
    ensures var keys := SortedKeys(s.queues.Keys);
      |Step(s).ready.base| <= |s.ready.base| + Total(keys, |keys|)
  {
    hide Valid, Step, Batches, SortedKeys;
    OrdersListed(s);
    StepMoves(s);
    var keys := SortedKeys(s.queues.Keys);
    BatchesBounded(s.queues, keys, |keys|);
    assert |Step(s).ready.Items()| == |s.ready.Items()| + |StepBatch(s)|;
  }
}
