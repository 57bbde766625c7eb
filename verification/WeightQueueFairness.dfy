/** Why counting whole steps is enough although a step runs one item at a time: with ready
    Gets falling between its moves it still does what an uninterrupted step does. */
module WeightQueueFairness {
  import opened Collections
  import opened LinkedQueue
  import opened Sorting
  import opened WeightQueue
  import opened WeightQueueSystem

  // ---- an interleaved step does what an uninterrupted one does ----

  lemma {:induction false} DrainReady<T(!new)>(s: State<T>, r: Chain<T>, w: int, left: int)
    requires w in s.queues
    ensures var d := Drain(s.(ready := r), w, left); d == Drain(s, w, left).(ready := d.ready)
    decreases |s.queues[w].base|
  {
    if left != 0 && s.queues[w].base != [] {
      var n := MoveOne(s, w);
      var r' := r.Add(s.queues[w].base[0].item);
      assert MoveOne(s.(ready := r), w) == n.(ready := r');
      DrainReady(n, r', w, left - 1);
    }
  }

  lemma {:induction false} SweepReady<T(!new)>(s: State<T>, r: Chain<T>, i: nat)
    requires i <= |s.orders| && forall k | 0 <= k < |s.orders| :: s.orders[k] in s.queues
    ensures var d := Sweep(s.(ready := r), i); d == Sweep(s, i).(ready := d.ready)
    decreases i
  {
    hide Drain, Sweep;
    SweepUnfolds(s, i);
    SweepUnfolds(s.(ready := r), i);
    if i > 0 {
      var w := s.orders[i - 1];
      DrainReady(s, r, w, w);
      SweepReady(Drain(s, w, w), Drain(s.(ready := r), w, w).ready, i - 1);
    }
  }

  /** What is left of a step that still has `i` orders and `left` moves of the current one to go. */
  function RestOfStep<T(==)>(q: State<T>, i: nat, left: int): State<T>
    requires i <= |q.orders| && forall k | 0 <= k < |q.orders| :: q.orders[k] in q.queues
  {
    if i == 0 then q else Sweep(Drain(q, q.orders[i - 1], left), i - 1)
  }

  function RestBatch<T(==)>(q: State<T>, i: nat, left: int): seq<T>
    requires i <= |q.orders| && forall k | 0 <= k < |q.orders| :: q.orders[k] in q.queues
  {
    if i == 0 then []
    else
      var w := q.orders[i - 1];
      Batch(q.queues[w].Items(), left) + Batches(Drain(q, w, left).queues, q.orders, i - 1)
  }

  lemma RestReady<T(!new)>(q: State<T>, r: Chain<T>, i: nat, left: int)
    requires i <= |q.orders| && forall k | 0 <= k < |q.orders| :: q.orders[k] in q.queues
    ensures var d := RestOfStep(q.(ready := r), i, left); d == RestOfStep(q, i, left).(ready := d.ready)
    ensures RestBatch(q.(ready := r), i, left) == RestBatch(q, i, left)
  {
    hide Drain, Sweep, Batches;
    if i > 0 {
      var w := q.orders[i - 1];
      DrainReady(q, r, w, left);
      SweepReady(Drain(q, w, left), Drain(q.(ready := r), w, left).ready, i - 1);
    }
  }

  /** While a worker is in step, what it has handed out plus what the rest of its step would
      do is the whole step from the state it locked. */
  ghost predicate OnCourse<T(!new)>(s: Sys<T>) {
    s.holder.Some? && s.holder.value in s.workers && s.workers[s.holder.value].Stepping? ==>
      var p := s.workers[s.holder.value];
      && Valid(s.q) && Valid(p.begun) && p.begun.orders == SortedKeys(p.begun.queues.Keys)
      && p.i <= |s.q.orders| && p.begun.orders == s.q.orders
      && Course(s.q, p.begun, p.i, p.left, p.handed)
  }

  ghost predicate Course<T(!new)>(q: State<T>, begun: State<T>, i: nat, left: int, handed: seq<T>)
    requires Valid(q) && Valid(begun) && i <= |q.orders|
  {
    && RestOfStep(q, i, left).queues == Step(begun).queues
    && RestOfStep(q, i, left).index == Step(begun).index
    && handed + RestBatch(q, i, left) == StepBatch(begun)
  }

  lemma OtherBatches<T(!new)>(q: State<T>, w: int, i: nat)
    requires i < |q.orders| && q.orders[i] == w && Ascending(q.orders)
    requires forall k | 0 <= k < |q.orders| :: q.orders[k] in q.queues
    ensures Batches(Drain(q, w, w).queues, q.orders, i) == Batches(q.queues, q.orders, i)
  {
    hide Drain, Moved, Batch, Chain.Items;
    DrainMoves(q, w, w);
    BatchesDepend(Drain(q, w, w).queues, q.queues, q.orders, i);
  }

  lemma SweepIsRest<T(!new)>(q: State<T>, i: nat)
    requires i <= |q.orders| && Ascending(q.orders) && forall k | 0 <= k < |q.orders| :: q.orders[k] in q.queues
    ensures RestOfStep(q, i, Enter(q.orders, i)) == Sweep(q, i)
    ensures RestBatch(q, i, Enter(q.orders, i)) == Batches(q.queues, q.orders, i)
  {
    hide Drain, Sweep, Moved, Batch, Chain.Items;
    SweepUnfolds(q, i);
    if i > 0 {
      var w := q.orders[i - 1];
      OtherBatches(q, w, i - 1);
      BatchesUnfold(q.queues, q.orders, i);
    }
  }

  lemma BatchesUnfold<T>(queues: map<int, Chain<T>>, orders: seq<int>, i: nat)
    requires i <= |orders| && forall k | 0 <= k < |orders| :: orders[k] in queues
    ensures Batches(queues, orders, i) ==
      if i == 0 then [] else Batch(queues[orders[i - 1]].Items(), orders[i - 1]) + Batches(queues, orders, i - 1)
  {
  }

  lemma CourseLock<T(!new)>(q: State<T>)
    requires Valid(q)
    ensures var r := Refresh(q); Valid(r) && Course(r, r, |r.orders|, Enter(r.orders, |r.orders|), [])
  {
    hide Sweep, Drain, Batches, Batch, SortedKeys, RestOfStep, RestBatch, Chain.Valid;
    RefreshExact(q);
    var r := Refresh(q);
    SweepIsRest(r, |r.orders|);
    assert Refresh(r) == r;
  }

  lemma DrainOnce<T>(q: State<T>, w: int, left: int)
    requires w in q.queues && q.queues[w].base != [] && left != 0
    ensures var t := q.queues[w].base[0].item; var r := MoveOne(q, w);
      && r.orders == q.orders && r.queues.Keys == q.queues.Keys
      && Drain(q, w, left) == Drain(r, w, left - 1)
      && Batch(q.queues[w].Items(), left) == [t] + Batch(r.queues[w].Items(), left - 1)
  {
    ItemsGet(q.queues[w]);
  }

  lemma RestMove<T(!new)>(q: State<T>, i: nat, left: int)
    requires 0 < i <= |q.orders| && forall k | 0 <= k < |q.orders| :: q.orders[k] in q.queues
    requires left != 0 && q.queues[q.orders[i - 1]].base != []
    ensures var w := q.orders[i - 1]; var r := MoveOne(q, w);
      && RestOfStep(q, i, left) == RestOfStep(r, i, left - 1)
      && RestBatch(q, i, left) == [q.queues[w].base[0].item] + RestBatch(r, i, left - 1)
  {
    var w := q.orders[i - 1];
    hide Drain, Sweep, MoveOne, Batch, Chain.Items;
    DrainOnce(q, w, left);
    var t, head := q.queues[w].base[0].item, Batch(MoveOne(q, w).queues[w].Items(), left - 1);
    var rest := Batches(Drain(q, w, left).queues, q.orders, i - 1);
    assert [t] + head + rest == [t] + (head + rest);
  }

  lemma DrainNone<T>(q: State<T>, w: int, left: int)
    requires w in q.queues && (left == 0 || q.queues[w].base == [])
    ensures Drain(q, w, left) == q && Batch(q.queues[w].Items(), left) == []
  {
  }

  lemma RestNext<T(!new)>(q: State<T>, i: nat, left: int)
    requires 0 < i <= |q.orders| && Ascending(q.orders) && forall k | 0 <= k < |q.orders| :: q.orders[k] in q.queues
    requires left == 0 || q.queues[q.orders[i - 1]].base == []
    ensures RestOfStep(q, i, left) == RestOfStep(q, i - 1, Enter(q.orders, i - 1))
    ensures RestBatch(q, i, left) == RestBatch(q, i - 1, Enter(q.orders, i - 1))
  {
    hide Drain, Sweep, Batch, Chain.Items, Ascending;
    var w := q.orders[i - 1];
    DrainNone(q, w, left);
    SweepIsRest(q, i - 1);
    assert RestBatch(q, i, left) == [] + Batches(q.queues, q.orders, i - 1);
  }

  lemma MoveKeepsOrders<T(!new)>(q: State<T>, w: int)
    requires w in q.queues && q.queues[w].base != []
    ensures MoveOne(q, w).orders == q.orders
  {
  }

  lemma CourseMove<T(!new)>(q: State<T>, begun: State<T>, i: nat, left: int, handed: seq<T>)
    requires Valid(q) && Valid(begun) && 0 < i <= |q.orders| && Course(q, begun, i, left, handed)
    requires left != 0 && q.queues[q.orders[i - 1]].base != []
    ensures var w := q.orders[i - 1]; var t := q.queues[w].base[0].item; var r := MoveOne(q, w);
      Valid(r) && i <= |r.orders| && Course(r, begun, i, left - 1, handed + [t])
  {
    hide Valid, Step, StepBatch, RestOfStep, RestBatch, MoveOne;
    OrdersListed(q);
    var w := q.orders[i - 1];
    var t, r := q.queues[w].base[0].item, MoveOne(q, w);
    MoveKeepsOrders(q, w);
    RestMove(q, i, left);
    MoveOneValid(q, w);
    assert handed + ([t] + RestBatch(r, i, left - 1)) == handed + [t] + RestBatch(r, i, left - 1);
  }

  lemma CourseNext<T(!new)>(q: State<T>, begun: State<T>, i: nat, left: int, handed: seq<T>)
    requires Valid(q) && Valid(begun) && 0 < i <= |q.orders| && Course(q, begun, i, left, handed)
    requires left == 0 || q.queues[q.orders[i - 1]].base == []
    ensures Course(q, begun, i - 1, Enter(q.orders, i - 1), handed)
  {
    hide Valid, Step, StepBatch, RestOfStep, RestBatch;
    OrdersListed(q);
    RestNext(q, i, left);
  }

  lemma CoursePop<T(!new)>(q: State<T>, begun: State<T>, i: nat, left: int, handed: seq<T>)
    requires Valid(q) && Valid(begun) && i <= |q.orders| && Course(q, begun, i, left, handed) && q.ready.base != []
    ensures Valid(PopReady(q)) && Course(PopReady(q), begun, i, left, handed)
  {
    PopReadyValid(q);
    hide Step, StepBatch, RestOfStep, RestBatch;
    RestReady(q, q.ready.Get(), i, left);
  }

  lemma OnCourseStep<T(!new)>(s: Sys<T>, op: Op<T>)
    requires Structure(s) && OnCourse(s) && Enabled(s, op)
    ensures OnCourse(Apply(s, op))
  {
    hide Valid, Course, MoveOne, PopReady, SortedKeys;
    match op
    case Lock(w) =>
      RefreshExact(s.q);
      CourseLock(s.q);
    case Tick(w) => TickOnCourse(s, w);
    case TryFirst(w) => TryReadyOnCourse(s, w, BeforeStep);
    case TrySecond(w) => TryReadyOnCourse(s, w, Parked);
    case _ =>
  }

  lemma TickNextOnCourse<T(!new)>(s: Sys<T>, w: nat)
    requires Structure(s) && OnCourse(s) && Enabled(s, Tick(w)) && s.holder == Some(w) && s.workers[w].i > 0
    requires s.workers[w].left == 0 || s.q.queues[s.q.orders[s.workers[w].i - 1]].base == []
    ensures OnCourse(TickOnce(s, w))
  {
    hide Structure, Valid, Course, MoveOne, SortedKeys;
    var p := s.workers[w];
    CourseNext(s.q, p.begun, p.i, p.left, p.handed);
  }

  lemma TickMoveOnCourse<T(!new)>(s: Sys<T>, w: nat)
    requires Structure(s) && OnCourse(s) && Enabled(s, Tick(w)) && s.holder == Some(w) && s.workers[w].i > 0
    requires s.workers[w].left != 0 && s.q.queues[s.q.orders[s.workers[w].i - 1]].base != []
    ensures OnCourse(TickOnce(s, w))
  {
    hide Structure, Valid, Course, MoveOne, SortedKeys;
    var p := s.workers[w];
    CourseMove(s.q, p.begun, p.i, p.left, p.handed);
    MoveKeepsOrders(s.q, s.q.orders[p.i - 1]);
  }

  lemma TickOnCourse<T(!new)>(s: Sys<T>, w: nat)
    requires Structure(s) && OnCourse(s) && Enabled(s, Tick(w))
    ensures OnCourse(TickOnce(s, w))
  {
    hide Valid, Course, MoveOne, SortedKeys;
    var p := s.workers[w];
    assert s.holder == Some(w);
    if p.i > 0 {
      hide OnCourse, TickOnce;
      if p.left == 0 || s.q.queues[s.q.orders[p.i - 1]].base == [] {
        TickNextOnCourse(s, w);
      } else {
        TickMoveOnCourse(s, w);
      }
    }
  }

  lemma TryReadyOnCourse<T(!new)>(s: Sys<T>, w: nat, next: Phase<T>)
    requires Structure(s) && OnCourse(s) && w in s.workers && !s.workers[w].Stepping? && !next.Stepping?
    ensures OnCourse(TryReady(s, w, next))
  {
    hide Valid, Course, SortedKeys;
    if s.q.ready.base != [] && s.holder.Some? {
      var p := s.workers[s.holder.value];
      CoursePop(s.q, p.begun, p.i, p.left, p.handed);
    }
  }

  lemma {:induction false} RunKeepsCourse<T(!new)>(s: Sys<T>, ops: seq<Op<T>>)
    requires Structure(s) && OnCourse(s) && Runs(s, ops)
    ensures Structure(After(s, ops)) && OnCourse(After(s, ops))
    decreases |ops|
  {
    hide Structure, OnCourse, Enabled, Apply;
    if ops != [] {
      StructureStep(s, ops[0]);
      OnCourseStep(s, ops[0]);
      RunKeepsCourse(Apply(s, ops[0]), ops[1..]);
    }
  }

  /** However many ready Gets fall between its moves, a step that is about to unlock has done
      to the weight queues and the index, and handed out in total, exactly what the whole
      step does from the state it locked. */
  lemma StepIsAtomic<T(!new)>(ops: seq<Op<T>>, w: nat)
    requires Runs(Start<T>(), ops)
    ensures var s := After(Start<T>(), ops);
      w in s.workers && s.workers[w].Stepping? && s.workers[w].i == 0 ==>
        var p := s.workers[w];
        && Valid(p.begun)
        && s.q.queues == Step(p.begun).queues && s.q.index == Step(p.begun).index
        && p.handed == StepBatch(p.begun)
  {
    RunKeepsCourse(Start<T>(), ops);
  }
}
