/** Every run of the queue's own actions ends, and ends with every item finished. */
module WeightQueueProgress {
  import opened Collections
  import opened LinkedQueue
  import opened Sorting
  import opened WeightQueue
  import opened WeightQueueSystem
  import opened WeightQueueSafety

  /** Actions that no caller has to start: everything but adding, joining and leaving. */
  predicate Internal<T>(op: Op<T>) { !op.Add? && !op.Spawn? && !op.Exit? }

  /** How far a worker is from parking, with `n` weight queues. */
  function Rank<T(==)>(p: Phase<T>, n: nat): nat {
    match p
    case First => 4 + n
    case BeforeStep => 3 + n
    case Stepping(i, _, _, _, _) => 2 + i
    case Second => 1
    case Holding(_) => 0
    case Parked => 0
  }

  ghost function Ranks<T>(workers: map<nat, Phase<T>>, n: nat): map<nat, int> {
    map w | w in workers :: Rank(workers[w], n)
  }

  /** Work still owed to the items and signals; each unit may send one worker round once more. */
  ghost function Debt<T>(s: Sys<T>): nat {
    4 * |WaitBag(s.q.queues)| + 3 * |s.q.ready.base| + 2 * |Bag(Hands(s.workers))| + |s.deferred| + 2 * s.adders +
    if s.signal then 1 else 0
  }

  ghost function Potential<T>(s: Sys<T>): int {
    (5 + |s.q.queues|) * Debt(s) + Sum(Ranks(s.workers, |s.q.queues|))
  }

  lemma RanksPut<T>(workers: map<nat, Phase<T>>, w: nat, p: Phase<T>, n: nat)
    requires w in workers
    ensures Sum(Ranks(workers[w := p], n)) == Sum(Ranks(workers, n)) + Rank(p, n) - Rank(workers[w], n)
  {
    SumUpdate(Ranks(workers, n), w, Rank(p, n));
    assert Ranks(workers[w := p], n) == Ranks(workers, n)[w := Rank(p, n)];
  }

  /** What an internal action does to the debt: each that puts a worker back to the start
      or moves an item pays for it. */
  ghost predicate Pays<T>(s: Sys<T>, t: Sys<T>) {
    |t.q.queues| == |s.q.queues| &&
    var n := |s.q.queues|;
    || (Debt(t) == Debt(s) && Sum(Ranks(t.workers, n)) < Sum(Ranks(s.workers, n)))
    || (Debt(t) < Debt(s) && Sum(Ranks(t.workers, n)) <= Sum(Ranks(s.workers, n)) + 4 + n)
  }

  lemma OneUnit(n: nat, d: nat, e: nat)
    requires d < e
    ensures n * d + n <= n * e
  {
    assert n * e == n * (d + 1) + n * (e - d - 1);
  }

  lemma Times(n: nat, d: nat)
    ensures n * d >= 0
  {
  }

  lemma PaysDecreases<T>(s: Sys<T>, t: Sys<T>)
    requires Pays(s, t)
    ensures Potential(t) < Potential(s)
  {
    hide Debt, Ranks, Sum;
    if Debt(t) < Debt(s) { OneUnit(5 + |s.q.queues|, Debt(t), Debt(s)); }
  }

  lemma TryReadyPays<T(!new)>(s: Sys<T>, w: nat, next: Phase<T>)
    requires (At(s, w, First) && next == BeforeStep) || (At(s, w, Second) && next == Parked)
    ensures Pays(s, TryReady(s, w, next))
  {
    hide Bag, Hands, Sum, Ranks, WaitBag;
    var t := TryReady(s, w, next);
    RanksPut(s.workers, w, t.workers[w], |s.q.queues|);
    if s.q.ready.base == [] {
      HandsKeep(s.workers, w, next);
    } else {
      HandsTake(s.workers, w, s.q.ready.base[0].item);
    }
  }

  lemma TickPays<T(!new)>(s: Sys<T>, w: nat)
    requires Structure(s) && Enabled(s, Tick(w))
    ensures Pays(s, TickOnce(s, w))
  {
    hide Structure, Bag, Hands, Sum, Ranks, WaitBag, MoveOne;
    var p, t := s.workers[w], TickOnce(s, w);
    RanksPut(s.workers, w, t.workers[w], |s.q.queues|);
    HandsKeep(s.workers, w, t.workers[w]);
    if p.i > 0 {
      var weight := s.q.orders[p.i - 1];
      if p.left != 0 && s.q.queues[weight].base != [] { MoveCounts(s.q, weight); }
    }
  }

  lemma MoveCounts<T(!new)>(q: State<T>, weight: int)
    requires weight in q.queues && q.queues[weight].base != []
    ensures |WaitBag(MoveOne(q, weight).queues)| + 1 == |WaitBag(q.queues)|
    ensures |MoveOne(q, weight).ready.base| == |q.ready.base| + 1
    ensures |MoveOne(q, weight).queues| == |q.queues|
  {
    MoveOneBag(q, weight);
    assert MoveOne(q, weight).queues.Keys == q.queues.Keys;
  }

  lemma LockPays<T(!new)>(s: Sys<T>, w: nat)
    requires Structure(s) && Enabled(s, Lock(w))
    ensures Pays(s, Apply(s, Lock(w)))
  {
    RefreshExact(s.q);
    hide Structure, Bag, Hands, Sum, Ranks, WaitBag, Valid;
    var t := Apply(s, Lock(w));
    RanksPut(s.workers, w, t.workers[w], |s.q.queues|);
    HandsKeep(s.workers, w, t.workers[w]);
  }

  lemma OtherPays<T(!new)>(s: Sys<T>, op: Op<T>)
    requires Enabled(s, op) && (op.Signal? || op.Finish? || op.Wake? || op.Defer? || op.FinishDeferred?)
    ensures Pays(s, Apply(s, op))
  {
    hide Bag, Hands, Sum, Ranks, WaitBag;
    if op.Finish? || op.Defer? { HandsDrop(s.workers, op.w); }
    if op.Wake? { HandsKeep(s.workers, op.w, First); }
    if op.Finish? || op.Wake? || op.Defer? { RanksPut(s.workers, op.w, First, |s.q.queues|); }
  }

  /** Every internal action lowers the potential. */
  lemma InternalDecreases<T(!new)>(s: Sys<T>, op: Op<T>)
    requires Structure(s) && Enabled(s, op) && Internal(op)
    ensures Potential(Apply(s, op)) < Potential(s)
  {
    hide Structure, Pays, Potential;
    match op {
      case TryFirst(w) => TryReadyPays(s, w, BeforeStep);
      case TrySecond(w) => TryReadyPays(s, w, Parked);
      case Tick(w) => TickPays(s, w);
      case Lock(w) => LockPays(s, w);
      case _ => OtherPays(s, op);
    }
    PaysDecreases(s, Apply(s, op));
  }

  lemma PotentialNatural<T(!new)>(s: Sys<T>)
    ensures Potential(s) >= 0
  {
    SumBounds(Ranks(s.workers, |s.q.queues|));
    hide Debt, Sum;
    Times(5 + |s.q.queues|, Debt(s));
  }

  // ---- main results ----

  /** Internal actions alone cannot go on for ever: a run of them is at most as long as the
      potential of the state it starts from. */
  lemma {:induction false} InternalRunsEnd<T(!new)>(s: Sys<T>, ops: seq<Op<T>>)
    requires Structure(s) && Runs(s, ops) && forall k | 0 <= k < |ops| :: Internal(ops[k])
    ensures |ops| <= Potential(s)
    decreases |ops|
  {
    hide Structure, Potential, Enabled, Apply;
    PotentialNatural(s);
    if ops != [] {
      StructureStep(s, ops[0]);
      InternalDecreases(s, ops[0]);
      InternalRunsEnd(Apply(s, ops[0]), ops[1..]);
    }
  }

  ghost predicate Quiet<T(!new)>(s: Sys<T>) { forall op: Op<T> :: Internal(op) ==> !Enabled(s, op) }

  /** Where they end, provided there is a worker at all, every worker is parked, nothing is
      queued, and every channel AddWeight ever returned is closed. */
  lemma QuietMeansDone<T(!new)>(ops: seq<Op<T>>)
    requires Runs(Start<T>(), ops)
    ensures var s := After(Start<T>(), ops);
      Quiet(s) && s.workers.Keys != {} ==>
        && Copies(s) == multiset{} && s.q.index == map[]
        && (forall w | w in s.workers :: s.workers[w] == Parked)
        && (forall c: nat | c < s.q.issued :: c in s.q.closed)
  {
    Reachable(ops);
    var s := After(Start<T>(), ops);
    if Quiet(s) && s.workers.Keys != {} {
      AllParked(s);
      NothingLeft(s);
    }
  }

  lemma AllParked<T(!new)>(s: Sys<T>)
    requires Structure(s) && Quiet(s)
    ensures forall w | w in s.workers :: s.workers[w] == Parked
    ensures s.adders == 0 && s.holder.None?
  {
    if s.holder.Some? {
      TickNeverPanics(s, s.holder.value);
      assert Internal(Op<T>.Tick(s.holder.value));
    }
    assert !Enabled(s, Op<T>.Signal);
    forall w | w in s.workers ensures s.workers[w] == Parked {
      assert !Enabled(s, Op<T>.TryFirst(w)) && !Enabled(s, Op<T>.TrySecond(w));
      assert !Enabled(s, Op<T>.Lock(w)) && !Enabled(s, Op<T>.Finish(w));
    }
  }

  lemma NothingLeft<T(!new)>(s: Sys<T>)
    requires Inv(s) && Quiet(s) && s.workers.Keys != {} && s.adders == 0
    requires (forall w | w in s.workers :: s.workers[w] == Parked) && s.holder.None?
    ensures Copies(s) == multiset{} && s.q.index == map[]
    ensures forall c: nat | c < s.q.issued :: c in s.q.closed
  {
    var w := Pick(s.workers.Keys);
    assert !Enabled(s, Op<T>.Wake(w));
    assert !AnyWillPop(s) && !AnyWillStep(s) && s.q.ready.base == [] && !AnyWaiting(s.q);
    hide Structure, Awake, Queued, WaitBag;
    QueuedSomewhere(s.q);
    if x :| x in Bag(Hands(s.workers)) {
      var v := BagWitness(Hands(s.workers), x);
    }
    forall x: T ensures x !in s.deferred { assert !Enabled(s, Op<T>.FinishDeferred(x)); }
    assert Copies(s) == multiset{};
    forall c: nat | c < s.q.issued ensures c in s.q.closed {
      assert !Listed(s.q, c);
    }
  }
}
