/** Adders and workers sharing one weighted queue, interleaved at every lock boundary.
    The ready queue has its own lock, so a ready Get can fall between any two items that a
    step moves; the step itself runs under the main lock one item at a time. */
module WeightQueueSystem {
  import opened Collections
  import opened LinkedQueue
  import opened Sorting
  import opened WeightQueue

  /** Where a worker stands in GetOrWaitWithDone and its caller. */
  datatype Phase<T(==)> =
    | First                    // before the first Get on the ready queue
    | BeforeStep               // found it empty, about to lock
    // in step, with the lock: `i` orders and `left` moves of the current one to go;
    // `begun` is the state at the lock, `handed` what has been moved since
    | Stepping(i: nat, left: int, added: bool, begun: State<T>, handed: seq<T>)
    | Second                   // before the second Get on the ready queue
    | Holding(item: T)
    | Parked                   // in the select on done and signal

  /** `adders` counts the AddWeight calls between their unlock and their send on `signal`;
      `deferred` holds the items whose finish closure was handed on by a worker that went on
      to its next Get; `raised` is a record of the items raised since they were last added. */
  datatype Sys<T(==)> = Sys(
    q: State<T>,
    signal: bool,
    adders: nat,
    workers: map<nat, Phase<T>>,
    holder: Option<nat>,
    deferred: multiset<T>,
    raised: set<T>)

  datatype Op<T> =
    | Add(item: T, weight: int) | Signal
    | Spawn(w: nat) | TryFirst(w: nat) | Lock(w: nat) | Tick(w: nat) | TrySecond(w: nat)
    | Finish(w: nat) | Wake(w: nat) | Exit(w: nat)
    | Defer(w: nat) | FinishDeferred(item: T)

  function Start<T(==)>(): Sys<T> { Sys(New(), false, 0, map[], None, multiset{}, {}) }

  predicate At<T(==)>(s: Sys<T>, w: nat, p: Phase<T>) { w in s.workers && s.workers[w] == p }

  /** Whether the next action of an adder or worker can happen now. The two index conditions
      on Tick are what the program needs not to panic; TickNeverPanics shows they hold. */
  predicate Enabled<T(==)>(s: Sys<T>, op: Op<T>) {
    match op
    case Add(_, _) => s.holder.None?
    case Signal => s.adders > 0
    case Spawn(w) => w !in s.workers
    case TryFirst(w) => At(s, w, First)
    case Lock(w) => At(s, w, BeforeStep) && s.holder.None?
    case Tick(w) =>
      && w in s.workers && s.workers[w].Stepping?
      && s.workers[w].i <= |s.q.orders|
      && (s.workers[w].i > 0 ==> s.q.orders[s.workers[w].i - 1] in s.q.queues)
    case TrySecond(w) => At(s, w, Second)
    case Finish(w) => w in s.workers && s.workers[w].Holding? && s.holder.None?
    case Wake(w) => At(s, w, Parked) && s.signal
    case Exit(w) => At(s, w, Parked)
    case Defer(w) => w in s.workers && s.workers[w].Holding?
    case FinishDeferred(x) => x in s.deferred && s.holder.None?
  }

  function Enter(orders: seq<int>, i: nat): int { if 0 < i <= |orders| then orders[i - 1] else 0 }

  function Put<T(==)>(s: Sys<T>, w: nat, p: Phase<T>): Sys<T> { s.(workers := s.workers[w := p]) }

  /** A Get on the ready queue: hold its front item, or go on to `next` when it is empty. */
  function TryReady<T(==)>(s: Sys<T>, w: nat, next: Phase<T>): Sys<T> {
    if s.q.ready.base == [] then Put(s, w, next)
    else Put(s.(q := PopReady(s.q)), w, Holding(s.q.ready.base[0].item))
  }

  function TickOnce<T(==)>(s: Sys<T>, w: nat): Sys<T>
    requires Enabled(s, Tick(w))
  {
    var p := s.workers[w];
    if p.i == 0 then
      Put(s.(holder := None), w, if p.added then Second else Parked)
    else
      var weight := s.q.orders[p.i - 1];
      if p.left == 0 || s.q.queues[weight].base == [] then
        Put(s, w, p.(i := p.i - 1, left := Enter(s.q.orders, p.i - 1)))
      else
        var t := s.q.queues[weight].base[0].item;
        Put(s.(q := MoveOne(s.q, weight)), w, p.(left := p.left - 1, added := true, handed := p.handed + [t]))
  }

  function Apply<T(==)>(s: Sys<T>, op: Op<T>): Sys<T>
    requires Enabled(s, op)
  {
    match op
    case Add(x, weight) =>
      s.(q := AddWeight(s.q, x, weight), adders := s.adders + 1,
         raised := if Raises(s.q, x, weight) then s.raised + {x} else s.raised)
    case Signal => s.(adders := s.adders - 1, signal := true)
    case Spawn(w) => Put(s, w, First)
    case TryFirst(w) => TryReady(s, w, BeforeStep)
    case Lock(w) =>
      var q := Refresh(s.q);
      Put(s.(q := q, holder := Some(w)), w, Stepping(|q.orders|, Enter(q.orders, |q.orders|), false, q, []))
    case Tick(w) => TickOnce(s, w)
    case TrySecond(w) => TryReady(s, w, Parked)
    case Finish(w) =>
      var x := s.workers[w].item;
      Put(s.(q := WeightQueue.Finish(s.q, x), raised := s.raised - {x}), w, First)
    case Wake(w) => Put(s.(signal := false), w, First)
    case Exit(w) => s.(workers := s.workers - {w})
    case Defer(w) => Put(s.(deferred := s.deferred + multiset{s.workers[w].item}), w, First)
    case FinishDeferred(x) =>
      s.(q := WeightQueue.Finish(s.q, x), deferred := s.deferred - multiset{x}, raised := s.raised - {x})
  }

  ghost predicate Runs<T(!new)>(s: Sys<T>, ops: seq<Op<T>>)
    decreases |ops|
  {
    ops == [] || (Enabled(s, ops[0]) && Runs(Apply(s, ops[0]), ops[1..]))
  }

  ghost function After<T(!new)>(s: Sys<T>, ops: seq<Op<T>>): Sys<T>
    requires Runs(s, ops)
    decreases |ops|
  {
    if ops == [] then s else After(Apply(s, ops[0]), ops[1..])
  }

  // ---- structure: one lock holder, a well-formed queue, fresh orders while stepping ----

  ghost predicate Structure<T(!new)>(s: Sys<T>) {
    && Valid(s.q)
    && (forall w | w in s.workers && s.workers[w].Stepping? :: s.holder == Some(w))
    && (s.holder.Some? ==>
         && s.holder.value in s.workers && s.workers[s.holder.value].Stepping?
         && s.workers[s.holder.value].i <= |s.q.orders|
         && s.q.orders == SortedKeys(s.q.queues.Keys))
  }

  lemma StructureStep<T(!new)>(s: Sys<T>, op: Op<T>)
    requires Structure(s) && Enabled(s, op)
    ensures Structure(Apply(s, op))
  {
    hide Valid, SortedKeys, AddWeight, MoveOne, PopReady, WeightQueue.Finish;
    match op
    case Add(x, weight) => AddWeightValid(s.q, x, weight);
    case TryFirst(w) => TryReadyStructure(s, w, BeforeStep);
    case TrySecond(w) => TryReadyStructure(s, w, Parked);
    case Lock(w) => RefreshExact(s.q);
    case Tick(w) => TickStructure(s, w);
    case Finish(w) => FinishValid(s.q, s.workers[w].item);
    case FinishDeferred(x) => FinishValid(s.q, x);
    case _ =>
  }

  lemma TryReadyStructure<T(!new)>(s: Sys<T>, w: nat, next: Phase<T>)
    requires Structure(s) && w in s.workers && !s.workers[w].Stepping? && !next.Stepping?
    ensures Structure(TryReady(s, w, next))
  {
    hide Valid, SortedKeys;
    if s.q.ready.base != [] { PopReadyValid(s.q); }
  }

  lemma MoveKeeps<T(!new)>(q: State<T>, weight: int)
    requires Valid(q) && weight in q.queues && q.queues[weight].base != []
    ensures
      var n := MoveOne(q, weight);
      Valid(n) && n.orders == q.orders && n.queues.Keys == q.queues.Keys
  {
    hide Valid;
    MoveOneValid(q, weight);
  }

  lemma TickStructure<T(!new)>(s: Sys<T>, w: nat)
    requires Structure(s) && Enabled(s, Tick(w))
    ensures Structure(TickOnce(s, w))
  {
    hide Valid, SortedKeys, MoveOne;
    var p := s.workers[w];
    if p.i > 0 && s.q.queues[s.q.orders[p.i - 1]].base != [] { MoveKeeps(s.q, s.q.orders[p.i - 1]); }
  }

  lemma FinishValid<T(!new)>(q: State<T>, x: T)
    requires Valid(q)
    ensures Valid(WeightQueue.Finish(q, x))
  {
  }

  /** A worker in step is never stopped by an index out of range or a missing queue. */
  lemma TickNeverPanics<T(!new)>(s: Sys<T>, w: nat)
    requires Structure(s) && w in s.workers && s.workers[w].Stepping?
    ensures Enabled(s, Tick(w))
  {
  }

  // ---- copies of items ----

  function Hand<T(==)>(p: Phase<T>): seq<T> { if p.Holding? then [p.item] else [] }

  ghost function Hands<T>(workers: map<nat, Phase<T>>): map<nat, seq<T>> {
    map w | w in workers :: Hand(workers[w])
  }

  /** Every copy of every item: waiting, ready, in a worker's hands or waiting for its deferred closure. */
  ghost function Copies<T>(s: Sys<T>): multiset<T> { Queued(s.q) + Bag(Hands(s.workers)) + s.deferred }

  lemma HandsPut<T>(workers: map<nat, Phase<T>>, w: nat, p: Phase<T>)
    ensures Bag(Hands(workers[w := p])) + multiset(if w in workers then Hand(workers[w]) else [])
         == Bag(Hands(workers)) + multiset(Hand(p))
  {
    hide Bag;
    BagUpdate(Hands(workers), w, Hand(p));
    assert Hands(workers[w := p]) == Hands(workers)[w := Hand(p)];
  }

  lemma HandsKeep<T>(workers: map<nat, Phase<T>>, w: nat, p: Phase<T>)
    requires Hand(p) == [] && (w in workers ==> Hand(workers[w]) == [])
    ensures Bag(Hands(workers[w := p])) == Bag(Hands(workers))
  {
    hide Bag;
    HandsPut(workers, w, p);
    BagCancel(Bag(Hands(workers[w := p])), Bag(Hands(workers)), multiset(Hand(p)));
  }

  lemma HandsTake<T>(workers: map<nat, Phase<T>>, w: nat, x: T)
    requires w in workers && Hand(workers[w]) == []
    ensures Bag(Hands(workers[w := Holding(x)])) == Bag(Hands(workers)) + multiset{x}
  {
    HandsPut(workers, w, Holding(x));
  }

  lemma HandsDrop<T>(workers: map<nat, Phase<T>>, w: nat)
    requires w in workers && workers[w].Holding?
    ensures Bag(Hands(workers[w := First])) + multiset{workers[w].item} == Bag(Hands(workers))
  {
    HandsPut(workers, w, First);
  }

  lemma HandsExit<T>(workers: map<nat, Phase<T>>, w: nat)
    requires w in workers && Hand(workers[w]) == []
    ensures Bag(Hands(workers - {w})) == Bag(Hands(workers))
  {
    BagSplit(Hands(workers), w);
    assert Hands(workers - {w}) == Hands(workers) - {w};
  }

  lemma PopQueued<T>(q: State<T>)
    requires q.ready.base != []
    ensures Queued(PopReady(q)) + multiset{q.ready.base[0].item} == Queued(q)
  {
    ItemsGet(q.ready);
  }

  lemma MoveQueued<T>(q: State<T>, weight: int)
    requires weight in q.queues && q.queues[weight].base != []
    ensures Queued(MoveOne(q, weight)) == Queued(q)
  {
    MoveOneBag(q, weight);
  }

  /** What an AddWeight does to the copies: one more for a new item; for a raise, one more
      and one fewer if the queue of the stored weight still indexes the item. */
  ghost function CopiesAfterAdd<T>(s: Sys<T>, x: T, weight: int): multiset<T>
    requires x in s.q.index ==> s.q.index[x].weight in s.q.queues
  {
    if x !in s.q.index then Copies(s) + multiset{x}
    else if Raises(s.q, x, weight) && x !in s.q.queues[s.q.index[x].weight].index then Copies(s) + multiset{x}
    else Copies(s)
  }

  lemma AddNewQueued<T>(q: State<T>, x: T, weight: int)
    requires x !in q.index
    ensures Queued(AddWeight(q, x, weight)) == Queued(q) + multiset{x}
  {
    hide WaitBag;
    var entry := Entry(q.issued, NonZero(weight), false);
    EnqueueBag(q.(index := q.index[x := entry], issued := q.issued + 1), x, NonZero(weight));
  }

  lemma RaiseQueued<T(!new)>(q: State<T>, x: T, weight: int)
    requires Valid(q) && Raises(q, x, weight)
    ensures
      var b := q.queues[q.index[x].weight].index;
      Queued(AddWeight(q, x, weight)) == Queued(q) + if x in b then multiset{} else multiset{x}
  {
    hide WaitBag, Chain.Valid;
    var u := Unqueue(q, x, q.index[x].weight);
    UnqueueBag(q, x, q.index[x].weight);
    EnqueueBag(u, x, NonZero(weight));
  }

  lemma AddCopies<T(!new)>(s: Sys<T>, x: T, weight: int)
    requires Structure(s) && Enabled(s, Add(x, weight))
    ensures Copies(Apply(s, Add(x, weight))) == CopiesAfterAdd(s, x, weight)
  {
    hide Queued, Hands, Bag, Valid;
    if x !in s.q.index {
      hide AddWeight;
      AddNewQueued(s.q, x, weight);
    } else if Raises(s.q, x, weight) {
      hide AddWeight;
      RaiseQueued(s.q, x, weight);
    }
  }

  lemma TryReadyCopies<T(!new)>(s: Sys<T>, w: nat, next: Phase<T>)
    requires w in s.workers && Hand(s.workers[w]) == [] && Hand(next) == []
    ensures Copies(TryReady(s, w, next)) == Copies(s)
  {
    hide Queued, Bag, Hands, PopReady;
    if s.q.ready.base == [] {
      HandsKeep(s.workers, w, next);
    } else {
      HandsTake(s.workers, w, s.q.ready.base[0].item);
      PopQueued(s.q);
    }
  }

  lemma TickCopies<T(!new)>(s: Sys<T>, w: nat)
    requires Enabled(s, Tick(w))
    ensures Copies(TickOnce(s, w)) == Copies(s)
  {
    hide Queued, Bag, Hands, MoveOne;
    var p := s.workers[w];
    HandsKeep(s.workers, w, TickOnce(s, w).workers[w]);
    if p.i > 0 {
      var weight := s.q.orders[p.i - 1];
      if p.left != 0 && s.q.queues[weight].base != [] { MoveQueued(s.q, weight); }
    }
  }

  lemma SameQueued<T>(q: State<T>, r: State<T>)
    requires q.queues == r.queues && q.ready == r.ready
    ensures Queued(q) == Queued(r)
  {
  }

  lemma FinishCopies<T>(s: Sys<T>, w: nat)
    requires w in s.workers && s.workers[w].Holding?
    ensures
      var x := s.workers[w].item;
      Copies(Put(s.(q := WeightQueue.Finish(s.q, x), raised := s.raised - {x}), w, First)) + multiset{x} == Copies(s)
  {
    HandsDrop(s.workers, w);
    SameQueued(s.q, WeightQueue.Finish(s.q, s.workers[w].item));
    hide Queued, Bag, Hands;
  }

  lemma DeferCopies<T>(s: Sys<T>, w: nat)
    requires w in s.workers && s.workers[w].Holding?
    ensures Copies(Put(s.(deferred := s.deferred + multiset{s.workers[w].item}), w, First)) == Copies(s)
  {
    hide Queued, Bag, Hands;
    HandsDrop(s.workers, w);
  }

  /** The item whose finish closure an operation runs. */
  function Finished<T(==)>(s: Sys<T>, op: Op<T>): Option<T>
    requires Enabled(s, op)
  {
    match op
    case Finish(w) => Some(s.workers[w].item)
    case FinishDeferred(x) => Some(x)
    case _ => None
  }

  /** Apart from AddWeight, the items in the index change only by the one that is finished. */
  lemma IndexKeys<T>(s: Sys<T>, op: Op<T>)
    requires Enabled(s, op) && !op.Add?
    ensures
      var f := Finished(s, op);
      Apply(s, op).q.index.Keys == if f.Some? then s.q.index.Keys - {f.value} else s.q.index.Keys
  {
  }

  /** Copies are made only by AddWeight and dropped only by a finish closure, one at a time. */
  lemma OpCopies<T(!new)>(s: Sys<T>, op: Op<T>)
    requires Structure(s) && Enabled(s, op)
    ensures op.Add? ==> Copies(Apply(s, op)) == CopiesAfterAdd(s, op.item, op.weight)
    ensures Finished(s, op).Some? ==> Copies(Apply(s, op)) + multiset{Finished(s, op).value} == Copies(s)
    ensures !op.Add? && Finished(s, op).None? ==> Copies(Apply(s, op)) == Copies(s)
  {
    hide Valid, SortedKeys, Queued, Bag, Hands;
    match op
    case Add(x, weight) => AddCopies(s, x, weight);
    case Signal =>
    case Spawn(w) => HandsKeep(s.workers, w, First);
    case TryFirst(w) => TryReadyCopies(s, w, BeforeStep);
    case Lock(w) =>
      HandsKeep(s.workers, w, Apply(s, op).workers[w]);
      SameQueued(s.q, Refresh(s.q));
    case Tick(w) => TickCopies(s, w);
    case TrySecond(w) => TryReadyCopies(s, w, Parked);
    case Finish(w) => FinishCopies(s, w);
    case Wake(w) => HandsKeep(s.workers, w, First);
    case Exit(w) => HandsExit(s.workers, w);
    case Defer(w) => DeferCopies(s, w);
    case FinishDeferred(x) => SameQueued(s.q, WeightQueue.Finish(s.q, x));
  }
}
