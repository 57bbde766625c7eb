/** Safety of every interleaving of adders and workers: channels, waiters and wake-ups. */
module WeightQueueSafety {
  import opened Collections
  import opened LinkedQueue
  import opened Sorting
  import opened WeightQueue
  import opened WeightQueueSystem

  // ---- done channels ----

  /** Every channel issued is either in the index, open and under one item only, or closed,
      and then closed once. */
  ghost predicate Channels<T(!new)>(q: State<T>) {
    && (forall x | x in q.index :: q.index[x].done < q.issued && q.index[x].done !in q.closed)
    && (forall x, y | x in q.index && y in q.index && q.index[x].done == q.index[y].done :: x == y)
    && (forall i, j | 0 <= i < j < |q.closed| :: q.closed[i] != q.closed[j])
    && (forall c | c in q.closed :: c < q.issued)
    && (forall c: nat | c < q.issued :: c in q.closed || Listed(q, c))
  }

  ghost predicate Listed<T(!new)>(q: State<T>, c: nat) {
    exists x :: x in q.index && q.index[x].done == c
  }

  lemma EnqueueKeepsEntries<T>(q: State<T>, x: T, weight: int)
    ensures var r := AddWeight(q, x, weight);
      && r.closed == q.closed && r.issued == (if x in q.index then q.issued else q.issued + 1)
      && r.index == if x in q.index then q.index else q.index[x := Entry(q.issued, NonZero(weight), false)]
  {
  }

  lemma ChannelsAdd<T(!new)>(q: State<T>, x: T, weight: int)
    requires Channels(q)
    ensures Channels(AddWeight(q, x, weight))
  {
    hide Enqueue, Unqueue;
    var r := AddWeight(q, x, weight);
    EnqueueKeepsEntries(q, x, weight);
    if x !in q.index {
      assert r.index == q.index[x := Entry(q.issued, NonZero(weight), false)];
      assert r.index[x].done == q.issued;
      forall c: nat | c < r.issued ensures c in r.closed || Listed(r, c) {
        if c < q.issued && c !in q.closed {
          var y :| y in q.index && q.index[y].done == c;
          assert y in r.index && r.index[y].done == c;
        }
      }
    }
  }

  lemma ChannelsSame<T(!new)>(q: State<T>, r: State<T>)
    requires Channels(q)
    requires r.index.Keys == q.index.Keys && (forall x | x in q.index :: r.index[x].done == q.index[x].done)
    requires r.issued == q.issued && r.closed == q.closed
    ensures Channels(r)
  {
    forall c: nat | c < r.issued ensures c in r.closed || Listed(r, c) {
      if c !in q.closed {
        var y :| y in q.index && q.index[y].done == c;
        assert y in r.index && r.index[y].done == c;
      }
    }
  }

  lemma ChannelsFinish<T(!new)>(q: State<T>, x: T)
    requires Channels(q)
    ensures Channels(WeightQueue.Finish(q, x))
  {
    var r := WeightQueue.Finish(q, x);
    if x in q.index {
      forall c: nat | c < r.issued ensures c in r.closed || Listed(r, c) {
        if c !in r.closed {
          assert c !in q.closed;
          var y :| y in q.index && q.index[y].done == c;
          assert y != x && y in r.index;
        }
      }
      forall y | y in r.index ensures r.index[y].done !in r.closed {
        assert q.index[y].done != q.index[x].done;
      }
    }
  }

  lemma ChannelsTick<T(!new)>(s: Sys<T>, w: nat)
    requires Channels(s.q) && Enabled(s, Tick(w))
    ensures Channels(TickOnce(s, w).q)
  {
    hide Channels, Listed;
    ChannelsSame(s.q, TickOnce(s, w).q);
  }

  lemma ChannelsStep<T(!new)>(s: Sys<T>, op: Op<T>)
    requires Channels(s.q) && Enabled(s, op)
    ensures Channels(Apply(s, op).q)
  {
    hide Channels, Listed, AddWeight, WeightQueue.Finish, TickOnce;
    match op
    case Add(x, weight) => ChannelsAdd(s.q, x, weight);
    case Finish(w) => ChannelsFinish(s.q, s.workers[w].item);
    case FinishDeferred(x) => ChannelsFinish(s.q, x);
    case Tick(w) => ChannelsTick(s, w);
    case _ => ChannelsSame(s.q, Apply(s, op).q);
  }

  // ---- waiters ----

  /** Nobody waits for nothing: an indexed item has a copy somewhere. */
  ghost predicate Wanted<T(!new)>(s: Sys<T>) {
    forall x | x in s.q.index :: x in Copies(s)
  }

  lemma WantedAdd<T(!new)>(s: Sys<T>, x: T, weight: int)
    requires Structure(s) && Wanted(s)
    ensures forall y | y in AddWeight(s.q, x, weight).index :: y in CopiesAfterAdd(s, x, weight)
  {
    hide Copies, Valid;
  }

  lemma WantedStep<T(!new)>(s: Sys<T>, op: Op<T>)
    requires Structure(s) && Wanted(s) && Enabled(s, op)
    ensures Wanted(Apply(s, op))
  {
    hide Copies, Structure, CopiesAfterAdd, AddWeight;
    OpCopies(s, op);
    if op.Add? {
      WantedAdd(s, op.item, op.weight);
    } else {
      hide Apply, Finished;
      IndexKeys(s, op);
      if Finished(s, op).Some? {
        var x := Finished(s, op).value;
        forall y | y in Apply(s, op).q.index ensures y in Copies(Apply(s, op)) {
          assert (Copies(Apply(s, op)) + multiset{x})[y] == Copies(s)[y] && y != x;
        }
      }
    }
  }

  // ---- wake-ups ----

  /** Will still take a ready item, or look for one, before it can park. */
  predicate WillPop<T(==)>(p: Phase<T>) {
    p.First? || p.Second? || p.Holding? || (p.Stepping? && p.added)
  }

  /** Will still run a step, or is running one that has moved nothing yet, before it can park. */
  predicate WillStep<T(==)>(p: Phase<T>) {
    p.First? || p.BeforeStep? || p.Holding? || (p.Stepping? && !p.added)
  }

  ghost predicate AnyWillPop<T>(s: Sys<T>) { exists w :: w in s.workers && WillPop(s.workers[w]) }
  ghost predicate AnyWillStep<T>(s: Sys<T>) { exists w :: w in s.workers && WillStep(s.workers[w]) }

  ghost predicate AnyWaiting<T>(q: State<T>) { exists w :: w in q.queues && q.queues[w].base != [] }

  ghost predicate Signalled<T>(s: Sys<T>) { s.signal || s.adders > 0 }

  /** The queues a step has passed over without moving anything are empty. */
  ghost predicate PassedEmpty<T(!new)>(s: Sys<T>) {
    s.holder.Some? && s.holder.value in s.workers && s.workers[s.holder.value].Stepping? ==>
      var p := s.workers[s.holder.value];
      !p.added ==>
        && p.left == Enter(s.q.orders, p.i)
        && forall k | p.i <= k < |s.q.orders| && s.q.orders[k] in s.q.queues :: s.q.queues[s.q.orders[k]].base == []
  }

  ghost predicate Awake<T(!new)>(s: Sys<T>) {
    && PassedEmpty(s)
    && (s.q.ready.base != [] ==> Signalled(s) || AnyWillPop(s))
    && (s.q.ready.base == [] && AnyWaiting(s.q) ==> Signalled(s) || AnyWillStep(s))
  }

  lemma TryReadyAwake<T(!new)>(s: Sys<T>, w: nat)
    requires Structure(s) && Awake(s)
    requires At(s, w, First) || At(s, w, Second)
    ensures Awake(TryReady(s, w, if s.workers[w].First? then BeforeStep else Parked))
  {
    hide Valid, SortedKeys, Chain.Get;
    assert s.holder != Some(w);
    hide Structure;
    var t := TryReady(s, w, if s.workers[w].First? then BeforeStep else Parked);
    assert t.q.queues == s.q.queues && w in t.workers;
    if s.q.ready.base != [] {
      assert WillPop(t.workers[w]) && WillStep(t.workers[w]);
    } else if AnyWaiting(s.q) && AnyWillStep(s) {
      var v :| v in s.workers && WillStep(s.workers[v]);
      assert v in t.workers && WillStep(t.workers[v]);
    }
  }

  lemma MoveAwake<T(!new)>(s: Sys<T>, w: nat)
    requires Structure(s) && Awake(s) && Enabled(s, Tick(w)) && s.workers[w].i > 0
    requires 0 !in s.q.queues
    ensures Awake(TickOnce(s, w))
  {
    hide Valid, SortedKeys;
    var p, t := s.workers[w], TickOnce(s, w);
    assert s.holder == Some(w) && w in t.workers;
    assert s.q.orders[p.i - 1] in s.q.queues;
    if p.left != 0 && s.q.queues[s.q.orders[p.i - 1]].base != [] {
      assert WillPop(t.workers[w]) && t.q.ready.base != [];
    } else {
      SameWatchers(s, t, w);
    }
  }

  /** A step that moves on to the next queue is the same kind of witness as before. */
  lemma SameWatchers<T(!new)>(s: Sys<T>, t: Sys<T>, w: nat)
    requires w in s.workers && w in t.workers && t.workers == s.workers[w := t.workers[w]]
    requires WillPop(t.workers[w]) == WillPop(s.workers[w]) && WillStep(t.workers[w]) == WillStep(s.workers[w])
    ensures AnyWillPop(t) == AnyWillPop(s) && AnyWillStep(t) == AnyWillStep(s)
  {
    assert forall v | v in s.workers :: v in t.workers && WillPop(t.workers[v]) == WillPop(s.workers[v]);
    assert forall v | v in s.workers :: v in t.workers && WillStep(t.workers[v]) == WillStep(s.workers[v]);
  }

  lemma ReleaseAwake<T(!new)>(s: Sys<T>, w: nat)
    requires Structure(s) && Awake(s) && Enabled(s, Tick(w)) && s.workers[w].i == 0
    requires 0 !in s.q.queues
    ensures Awake(TickOnce(s, w))
  {
    hide Valid;
    var t := TickOnce(s, w);
    assert s.holder == Some(w) && w in t.workers;
    if s.workers[w].added {
      assert WillPop(t.workers[w]);
      if v :| v in s.workers && WillStep(s.workers[v]) { assert v in t.workers && WillStep(t.workers[v]); }
    } else {
      forall v | v in s.q.queues ensures s.q.queues[v].base == [] {
        var k :| 0 <= k < |s.q.orders| && s.q.orders[k] == v;
      }
      if v :| v in s.workers && WillPop(s.workers[v]) { assert v in t.workers && WillPop(t.workers[v]); }
    }
  }

  lemma AwakeStep<T(!new)>(s: Sys<T>, op: Op<T>)
    requires Structure(s) && Awake(s) && Enabled(s, op)
    ensures Awake(Apply(s, op))
  {
    hide SortedKeys, AddWeight;
    var t := Apply(s, op);
    match op
    case Add(_, _) => assert Signalled(t);
    case Signal => assert Signalled(t);
    case TryFirst(w) => TryReadyAwake(s, w);
    case TrySecond(w) => TryReadyAwake(s, w);
    case Tick(w) => if s.workers[w].i == 0 { ReleaseAwake(s, w); } else { MoveAwake(s, w); }
    case Lock(w) => LockAwake(s, w);
    case _ => OtherAwake(s, op);
  }

  lemma LockAwake<T(!new)>(s: Sys<T>, w: nat)
    requires Structure(s) && Awake(s) && Enabled(s, Lock(w))
    ensures Awake(Apply(s, Lock(w)))
  {
    hide SortedKeys, Valid;
    var t := Apply(s, Lock(w));
    SameWatchers(s, t, w);
  }

  lemma OtherAwake<T(!new)>(s: Sys<T>, op: Op<T>)
    requires Structure(s) && Awake(s) && Enabled(s, op)
    requires op.Spawn? || op.Finish? || op.Wake? || op.Exit? || op.Defer? || op.FinishDeferred?
    ensures Awake(Apply(s, op))
  {
    hide SortedKeys, Valid;
    var t := Apply(s, op);
    if op.FinishDeferred? {
      assert t.workers == s.workers && AnyWillPop(t) == AnyWillPop(s) && AnyWillStep(t) == AnyWillStep(s);
    } else if op.Exit? {
      if v :| v in s.workers && WillPop(s.workers[v]) { assert v in t.workers && WillPop(t.workers[v]); }
      if v :| v in s.workers && WillStep(s.workers[v]) { assert v in t.workers && WillStep(t.workers[v]); }
    } else {
      assert op.w in t.workers && WillPop(t.workers[op.w]) && WillStep(t.workers[op.w]);
    }
  }

  // ---- every reachable state ----

  ghost predicate Inv<T(!new)>(s: Sys<T>) {
    Structure(s) && Channels(s.q) && Wanted(s) && Awake(s)
  }

  lemma {:induction false} RunKeeps<T(!new)>(s: Sys<T>, ops: seq<Op<T>>)
    requires Inv(s) && Runs(s, ops)
    ensures Inv(After(s, ops))
    decreases |ops|
  {
    hide Structure, Channels, Wanted, Awake, Enabled, Apply;
    if ops != [] {
      StructureStep(s, ops[0]);
      ChannelsStep(s, ops[0]);
      WantedStep(s, ops[0]);
      AwakeStep(s, ops[0]);
      RunKeeps(Apply(s, ops[0]), ops[1..]);
    }
  }

  lemma Reachable<T(!new)>(ops: seq<Op<T>>)
    requires Runs(Start<T>(), ops)
    ensures Inv(After(Start<T>(), ops))
  {
    RunKeeps(Start<T>(), ops);
  }

  /** No lost wake-up: while anything is queued, the signal is set or about to be, or some
      worker is not parked. */
  lemma NoLostWakeup<T(!new)>(ops: seq<Op<T>>)
    requires Runs(Start<T>(), ops)
    ensures var s := After(Start<T>(), ops);
      Queued(s.q) != multiset{} ==> s.signal || s.adders > 0 || exists w :: w in s.workers && !s.workers[w].Parked?
  {
    Reachable(ops);
    var s := After(Start<T>(), ops);
    if Queued(s.q) != multiset{} && !Signalled(s) {
      QueuedSomewhere(s.q);
      if s.q.ready.base != [] {
        var w :| w in s.workers && WillPop(s.workers[w]);
      } else {
        assert AnyWaiting(s.q) && AnyWillStep(s);
        var w :| w in s.workers && WillStep(s.workers[w]);
      }
    }
  }

  lemma QueuedSomewhere<T(!new)>(q: State<T>)
    ensures Queued(q) != multiset{} <==> q.ready.base != [] || AnyWaiting(q)
  {
    var m := multiset(q.ready.Items());
    if q.ready.base != [] {
      assert q.ready.Items()[0] in m;
      assert q.ready.Items()[0] in Queued(q);
    }
    if w :| w in q.queues && q.queues[w].base != [] {
      var x := q.queues[w].Items()[0];
      assert x in Contents(q.queues)[w];
      BagMember(Contents(q.queues), w, x);
      assert x in Queued(q);
    }
    if x :| x in Queued(q) {
      if x in WaitBag(q.queues) {
        var w := BagWitness(Contents(q.queues), x);
        assert q.queues[w].base != [];
      } else {
        assert x in q.ready.Items();
      }
    }
  }

  /** No stranded waiter: in every reachable state an issued channel is open exactly while
      some item holds it in the index, that item has a copy waiting, ready or in a worker's
      hands, and no channel was closed twice. */
  lemma NoStrandedWaiter<T(!new)>(ops: seq<Op<T>>)
    requires Runs(Start<T>(), ops)
    ensures var s := After(Start<T>(), ops);
      && (forall c: nat | c < s.q.issued :: c !in s.q.closed <==> Listed(s.q, c))
      && (forall x | x in s.q.index :: x in Copies(s))
      && (forall i, j | 0 <= i < j < |s.q.closed| :: s.q.closed[i] != s.q.closed[j])
  {
    Reachable(ops);
  }
}
