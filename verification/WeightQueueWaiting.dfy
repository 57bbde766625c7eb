/** The bound on waiting in the interleaved system: workers and adders may do anything between, and a step
    runs one item at a time, but counting completed steps is enough. */
module WeightQueueWaiting {
  import opened Collections
  import opened LinkedQueue
  import opened Sorting
  import opened WeightQueue
  import opened WeightQueueSystem
  import opened WeightQueueFairness
  import opened WeightQueueStarvation

  /** This operation ends a step: the worker gives the lock back. */
  predicate Completes<T(==)>(s: Sys<T>, op: Op<T>) {
    op.Tick? && op.w in s.workers && s.workers[op.w].Stepping? && s.workers[op.w].i == 0
  }

  ghost function StepsDone<T(!new)>(s: Sys<T>, ops: seq<Op<T>>): nat
    requires Runs(s, ops)
    decreases |ops|
  {
    if ops == [] then 0 else StepsDone(Apply(s, ops[0]), ops[1..]) + if Completes(s, ops[0]) then 1 else 0
  }

  ghost predicate Unraised<T(!new)>(s: Sys<T>, ops: seq<Op<T>>, x: T)
    requires Runs(s, ops)
    decreases |ops|
  {
    ops == [] ||
    (!(ops[0].Add? && ops[0].item == x && Raises(s.q, x, ops[0].weight)) && Unraised(Apply(s, ops[0]), ops[1..], x))
  }

  /** At some point of the run the element is not in its queue any more. */
  ghost predicate Leaves<T(!new)>(s: Sys<T>, ops: seq<Op<T>>, w: int, e: Element<T>)
    requires Runs(s, ops)
    decreases |ops|
  {
    Gone(s.q, w, e) || (ops != [] && Leaves(Apply(s, ops[0]), ops[1..], w, e))
  }

  predicate Gone<T(==)>(q: State<T>, w: int, e: Element<T>) {
    w in q.queues ==> e !in q.queues[w].base
  }

  predicate InStep<T(==)>(s: Sys<T>) {
    s.holder.Some? && s.holder.value in s.workers && s.workers[s.holder.value].Stepping?
  }

  /** The state a count of steps starts from: the one that a step under way has locked, or the current one. */
  ghost function Counted<T(!new)>(s: Sys<T>): State<T> {
    if InStep(s) then s.workers[s.holder.value].begun else s.q
  }

  ghost predicate Good<T(!new)>(s: Sys<T>) {
    Structure(s) && OnCourse(s)
  }

  lemma GoodStep<T(!new)>(s: Sys<T>, op: Op<T>)
    requires Good(s) && Enabled(s, op)
    ensures Good(Apply(s, op))
  {
    hide Structure, OnCourse, Enabled, Apply;
    StructureStep(s, op);
    OnCourseStep(s, op);
  }

  /** What a step took is not in its queue afterwards. */
  lemma BatchLeaves<T(!new)>(s: State<T>, w: int, e: Element<T>)
    requires Valid(s) && Due(s, w, e)
    ensures Gone(Step(s), w, e)
  {
    hide Step;
    StepLeaves(s, w);
    var b := s.queues[w].base;
    var k :| 0 <= k < |Batch(b, w)| && Batch(b, w)[k] == e;
    assert s.queues[w].Valid() && b[k] == e;
    forall i | 0 <= i < |AfterBatch(b, w)| ensures AfterBatch(b, w)[i] != e {
      assert AfterBatch(b, w)[i] == b[i + w] && b[k].stamp < b[i + w].stamp;
    }
  }

  lemma SameCounted<T(!new)>(s: Sys<T>, op: Op<T>)
    requires Structure(s) && Enabled(s, op) && !op.Add? && !op.Tick?
    ensures Counted(Apply(s, op)).queues == Counted(s).queues
  {
    hide Valid, SortedKeys, PopReady, TryReady;
    match op
    case Lock(w) => assert Refresh(s.q).queues == s.q.queues;
    case TryFirst(w) => TryReadyCounted(s, w, BeforeStep);
    case TrySecond(w) => TryReadyCounted(s, w, Parked);
    case _ =>
  }

  lemma TryReadyCounted<T(!new)>(s: Sys<T>, w: nat, next: Phase<T>)
    requires Structure(s) && w in s.workers && !s.workers[w].Stepping? && !next.Stepping?
    ensures Counted(TryReady(s, w, next)).queues == Counted(s).queues
  {
    hide Valid, SortedKeys;
  }

  lemma TickCounted<T(!new)>(s: Sys<T>, w: nat)
    requires Structure(s) && Enabled(s, Tick(w)) && !Completes(s, Tick(w))
    ensures Counted(TickOnce(s, w)) == Counted(s)
  {
    hide Valid, SortedKeys, MoveOne;
  }

  /** An operation that does not complete a step leaves the item where it was counted to be. */
  lemma OtherKeepsPlace<T(!new)>(s: Sys<T>, op: Op<T>, w: int, e: Element<T>, p: nat)
    requires Good(s) && Enabled(s, op) && WaitsWithin(Counted(s), w, e, p) && !Completes(s, op)
    requires !(op.Add? && op.item == e.item && Raises(s.q, e.item, op.weight))
    ensures WaitsWithin(Counted(Apply(s, op)), w, e, p)
  {
    hide Valid, WaitsWithin, OnCourse, SortedKeys, AddWeight, Completes, Raises, TickOnce;
    if op.Add? {
      InsertKeepsPlace(s.q, op.item, op.weight, w, e, p);
    } else {
      hide Apply;
      if op.Tick? {
        TickCounted(s, op.w);
        TickApplies(s, op.w);
      } else {
        SameCounted(s, op);
      }
      SamePlace(Counted(s), Counted(Apply(s, op)), w, e, p);
    }
  }

  lemma TickApplies<T(!new)>(s: Sys<T>, w: nat)
    requires Enabled(s, Tick(w))
    ensures Apply(s, Tick(w)) == TickOnce(s, w)
  {
    hide TickOnce;
  }

  lemma CompletionAdvances<T(!new)>(s: Sys<T>, op: Op<T>, w: int, e: Element<T>, p: nat)
    requires Good(s) && Enabled(s, op) && w >= 1 && WaitsWithin(Counted(s), w, e, p) && Completes(s, op)
    ensures p < w ==> Gone(s.q, w, e)
    ensures Gone(s.q, w, e) || (p >= w && WaitsWithin(Counted(Apply(s, op)), w, e, p - w))
  {
    hide Valid, WaitsWithin, SortedKeys, Step, StepBatch, Gone;
    var begun := s.workers[op.w].begun;
    assert s.holder == Some(op.w) && begun == Counted(s);
    assert s.q.queues == Step(begun).queues;
    StepAdvances(begun, w, e, p);
    if Due(begun, w, e) {
      BatchLeaves(begun, w, e);
      SameGone(Step(begun), s.q, w, e);
    } else {
      SamePlace(Step(begun), Counted(Apply(s, op)), w, e, p - w);
    }
  }

  lemma SameGone<T>(q: State<T>, r: State<T>, w: int, e: Element<T>)
    requires q.queues == r.queues && Gone(q, w, e)
    ensures Gone(r, w, e)
  {
  }

  lemma {:induction false} LeavesInTime<T(!new)>(s: Sys<T>, ops: seq<Op<T>>, w: int, e: Element<T>, p: nat)
    requires Good(s) && Runs(s, ops) && w >= 1 && WaitsWithin(Counted(s), w, e, p) && Unraised(s, ops, e.item)
    requires StepsDone(s, ops) * w >= p + 1
    ensures Leaves(s, ops, w, e)
    decreases |ops|
  {
    hide Good, WaitsWithin, Counted, Completes, Gone, Enabled, Apply, Raises;
    if ops != [] && !Gone(s.q, w, e) {
      var op, t := ops[0], Apply(s, ops[0]);
      GoodStep(s, op);
      if Completes(s, op) {
        CompletionAdvances(s, op, w, e, p);
        OneStepLess(StepsDone(s, ops), w, p);
        LeavesInTime(t, ops[1..], w, e, p - w);
      } else {
        OtherKeepsPlace(s, op, w, e, p);
        LeavesInTime(t, ops[1..], w, e, p);
      }
    }
  }

  // ---- Starting in the middle of a step.

  lemma MoveKeepsPlace<T(!new)>(q: State<T>, v: int, w: int, e: Element<T>, p: nat)
    requires Valid(q) && v in q.queues && q.queues[v].base != [] && WaitsWithin(q, w, e, p)
    ensures Gone(MoveOne(q, v), w, e) || WaitsWithin(MoveOne(q, v), w, e, p)
  {
    var b := q.queues[w].base;
    var k :| 0 <= k <= p && k < |b| && b[k] == e;
    assert q.queues[w].Valid();
    var r := MoveOne(q, v);
    if v != w {
      assert r.queues[w].base[k] == e;
    } else if k == 0 {
      forall i | 0 <= i < |r.queues[w].base| ensures r.queues[w].base[i] != e { assert b[0].stamp < b[i + 1].stamp; }
    } else {
      assert r.queues[w].base[k - 1] == e;
    }
  }

  lemma TickKeepsPlace<T(!new)>(s: Sys<T>, v: nat, w: int, e: Element<T>, p: nat)
    requires Structure(s) && Enabled(s, Tick(v)) && WaitsWithin(s.q, w, e, p)
    ensures Gone(TickOnce(s, v).q, w, e) || WaitsWithin(TickOnce(s, v).q, w, e, p)
  {
    hide Valid, WaitsWithin, SortedKeys, MoveOne, Gone;
    var x := s.workers[v];
    if x.i > 0 && x.left != 0 && s.q.queues[s.q.orders[x.i - 1]].base != [] {
      MoveKeepsPlace(s.q, s.q.orders[x.i - 1], w, e, p);
    }
  }

  lemma IdleSame<T(!new)>(s: Sys<T>, op: Op<T>)
    requires InStep(s) && Enabled(s, op) && !op.Tick?
    ensures Apply(s, op).q.queues == s.q.queues && !op.Add?
  {
    hide AddWeight;
  }

  /** During a step only the step itself touches the weight queues, and it only moves items up or out. */
  lemma DuringStep<T(!new)>(s: Sys<T>, op: Op<T>, w: int, e: Element<T>, p: nat)
    requires Structure(s) && InStep(s) && Enabled(s, op) && WaitsWithin(s.q, w, e, p)
    ensures Gone(Apply(s, op).q, w, e) || WaitsWithin(Apply(s, op).q, w, e, p)
  {
    hide Structure, WaitsWithin, Gone, InStep, Apply, TickOnce;
    if op.Tick? {
      TickApplies(s, op.w);
      TickKeepsPlace(s, op.w, w, e, p);
    } else {
      IdleSame(s, op);
      SamePlace(s.q, Apply(s, op).q, w, e, p);
    }
  }

  /** Outside a step places count from the current state, and a completed step is over. */
  lemma OutsideStep<T(!new)>(s: Sys<T>)
    ensures !InStep(s) ==> Counted(s) == s.q
  {
  }

  lemma CompletedIsOver<T(!new)>(s: Sys<T>, op: Op<T>)
    requires Structure(s) && Enabled(s, op) && Completes(s, op)
    ensures !InStep(Apply(s, op))
  {
    hide Valid, SortedKeys;
  }

  lemma {:induction false} LeavesFromAnywhere<T(!new)>(s: Sys<T>, ops: seq<Op<T>>, w: int, e: Element<T>, p: nat)
    requires Good(s) && Runs(s, ops) && w >= 1 && WaitsWithin(s.q, w, e, p) && Unraised(s, ops, e.item)
    requires (StepsDone(s, ops) - if InStep(s) then 1 else 0) * w >= p + 1
    ensures Leaves(s, ops, w, e)
    decreases |ops|
  {
    hide WaitsWithin, Counted, Completes, Gone, Enabled, Apply, Raises, InStep, Structure, OnCourse;
    OutsideStep(s);
    if !InStep(s) {
      LeavesInTime(s, ops, w, e, p);
    } else if ops != [] {
      var op, t := ops[0], Apply(s, ops[0]);
      GoodStep(s, op);
      DuringStep(s, op, w, e, p);
      if !Gone(t.q, w, e) {
        if Completes(s, op) { CompletedIsOver(s, op); }
        FewerIsEnough(StepsDone(s, ops) - 1, StepsDone(t, ops[1..]) - if InStep(t) then 1 else 0, w);
        LeavesFromAnywhere(t, ops[1..], w, e, p);
      }
    }
  }

  lemma FewerIsEnough(a: int, b: int, w: int)
    requires a <= b && w >= 1
    ensures a * w <= b * w
  {
  }

  /** From any reachable state, an item at position `p` of the queue of weight `w` leaves that queue within any run
      that completes (p+1)/w steps, rounded up, and one more if somebody is in a step at the beginning, and does
      not raise it; how the steps interleave with other workers and with additions at any weight makes no
      difference. */
  lemma LeavesWithin<T(!new)>(before: seq<Op<T>>, ops: seq<Op<T>>, w: int, e: Element<T>, p: nat)
    requires Runs(Start<T>(), before)
    requires Runs(After(Start<T>(), before), ops) && Unraised(After(Start<T>(), before), ops, e.item)
    requires w >= 1 && WaitsWithin(After(Start<T>(), before).q, w, e, p)
    requires
      var s := After(Start<T>(), before);
      (StepsDone(s, ops) - if InStep(s) then 1 else 0) * w >= p + 1
    ensures Leaves(After(Start<T>(), before), ops, w, e)
  {
    hide WaitsWithin, InStep, StepsDone, Unraised, Leaves;
    GoodAfter(before);
    hide Runs, After, Good;
    LeavesFromAnywhere(After(Start<T>(), before), ops, w, e, p);
  }

  lemma GoodAfter<T(!new)>(before: seq<Op<T>>)
    requires Runs(Start<T>(), before)
    ensures Good(After(Start<T>(), before))
  {
    RunKeepsCourse(Start<T>(), before);
  }
}
