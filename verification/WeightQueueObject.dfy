/** The WeightQueue object: every method carries out, in place, the critical section of the
    same name in module WeightQueue. */
module WeightQueueObject {
  import opened Collections
  import opened LinkedQueue
  import opened Sorting
  import Spec = WeightQueue

  class WeightQueue<T(==,!new)> {
    var queue: Queue<T>
    var queues: map<int, Queue<T>>
    var orders: seq<int>
    var index: map<T, Spec.Entry>
    var issued: nat
    var closed: seq<nat>
    var signal: bool
    /** The objects in `queues`, and what they hold. */
    ghost var repr: set<Queue<T>>
    ghost var chains: map<int, Chain<T>>

    ghost function Model(): Spec.State<T>
      reads this, queue
    {
      Spec.State(queue.Model(), chains, orders, index, issued, closed)
    }

    /** The ready queue and the queues of the different weights are different, well-formed objects. */
    ghost predicate Sound()
      reads this`queue, this`queues, this`repr, this`chains, queue, repr
    {
      && queues.Keys == chains.Keys
      && queue !in repr
      && (forall w | w in queues :: queues[w] in repr && queues[w].Model() == chains[w] && chains[w].Valid())
      && (forall v, w | v in queues && w in queues && v != w :: queues[v] != queues[w])
      && queue.Model().Valid()
    }

    ghost predicate Valid()
      reads this, queue, repr
    {
      Sound() && Spec.Valid(Model())
    }

    constructor ()
      ensures Valid() && Model() == Spec.New() && !signal && fresh(queue)
    {
      queue := new Queue<T>();
      queues, orders, index, issued, closed, signal := map[], [], map[], 0, [], false;
      repr, chains := {}, map[];
    }

    method MakeQueue(weight: int)
      requires Sound() && weight !in queues
      modifies this`queues, this`chains, this`repr
      ensures Sound() && chains == old(chains)[weight := Empty()]
      ensures weight in queues && fresh(queues[weight]) && repr == old(repr) + {queues[weight]}
    {
      var q := new Queue<T>();
      queues := queues[weight := q];
      repr, chains := repr + {q}, chains[weight := Empty()];
    }

    method Push(item: T, weight: int)
      requires Sound() && weight in queues
      modifies this`chains, queues[weight]
      ensures Sound() && chains == old(chains)[weight := old(chains)[weight].Add(item)]
    {
      hide Chain.Valid, Chain.Items, Chain.Add;
      queues[weight].Add(item);
      chains := chains[weight := queues[weight].Model()];
    }

    /** The unexported addWeight: the queue of a weight is made on first use and kept. */
    method Enqueue(item: T, weight: int)
      requires Sound()
      modifies this`queues, this`chains, this`repr, repr
      ensures Sound() && Model() == Spec.Enqueue(old(Model()), item, weight) && fresh(repr - old(repr))
    {
      hide Chain.Valid, Chain.Items, Chain.Add, Empty;
      if weight !in queues { MakeQueue(weight); }
      Push(item, weight);
    }

    method Unqueue(item: T, weight: int)
      requires Sound() && weight in queues
      modifies this`chains, queues[weight]
      ensures Sound() && Model() == Spec.Unqueue(old(Model()), item, weight)
    {
      hide Chain.Valid, Chain.Items;
      var _ := queues[weight].Remove(item);
      chains := chains[weight := queues[weight].Model()];
    }

    /** The locked part of AddWeight. */
    method Insert(item: T, weight: int)
      requires Sound() && (item in index ==> index[item].weight in queues)
      modifies this`index, this`issued, this`queues, this`chains, this`repr, repr
      ensures Sound() && Model() == Spec.AddWeight(old(Model()), item, weight) && fresh(repr - old(repr))
      ensures item in index
    {
      hide Chain.Valid, Chain.Items;
      var w := if weight == 0 then 1 else weight;
      if item !in index {
        index := index[item := Spec.Entry(issued, w, false)];
        issued := issued + 1;
        Enqueue(item, w);
      } else if !index[item].soon && index[item].weight < w {
        Unqueue(item, index[item].weight);
        Enqueue(item, w);
      }
    }

    /** Returns the done channel of the item and leaves the signal set. */
    method AddWeight(item: T, weight: int) returns (ch: nat)
      requires Valid()
      modifies this`index, this`issued, this`queues, this`chains, this`repr, this`signal, repr
      ensures Valid() && Model() == Spec.AddWeight(old(Model()), item, weight) && fresh(repr - old(repr))
      ensures signal && item in index && ch == index[item].done
      ensures
        var v := if weight == 0 then 1 else weight;
        if item in old(index) && (old(index)[item].soon || old(index)[item].weight >= v) then Model() == old(Model())
        else Spec.WaitingAt(Model(), v) == Spec.WaitingAt(old(Model()), v) + [item]
    {
      hide Spec.Valid, Chain.Valid, Chain.Items, Spec.AddWeight, Spec.WaitingAt;
      Spec.AddWeightOutcome(Model(), item, weight);
      Spec.AddWeightValid(Model(), item, weight);
      if item in index { Spec.EntriesListed(Model(), item); }
      Insert(item, weight);
      ch := index[item].done;
      signal := true;
    }

    /** The body of the inner loop of step. */
    method MoveOne(weight: int) returns (ok: bool)
      requires Sound() && weight in queues
      modifies this`index, this`chains, queue, queues[weight]
      ensures Sound()
      ensures ok <==> old(Model()).queues[weight].base != []
      ensures Model() == if ok then Spec.MoveOne(old(Model()), weight) else old(Model())
    {
      hide Chain.Valid, Chain.Items, Chain.Add, Chain.Get;
      var t := queues[weight].Get();
      ok := t.Some?;
      if ok {
        if t.value in index {
          index := index[t.value := index[t.value].(soon := true)];
        }
        queue.Add(t.value);
        chains := chains[weight := queues[weight].Model()];
      }
    }

    /** The inner loop of step over the queue of one weight. */
    method Drain(weight: int) returns (added: bool)
      requires Sound() && weight in queues
      modifies this`index, this`chains, queue, queues[weight]
      ensures Sound() && Model() == Spec.Drain(old(Model()), weight, weight)
      ensures |Model().ready.base| >= |old(Model()).ready.base|
      ensures added <==> |Model().ready.base| > |old(Model()).ready.base|
    {
      hide Chain.Valid, Chain.Items, Spec.Drain, Spec.MoveOne;
      ghost var start := Model();
      var j, ok := 0, true;
      added := false;
      while ok && j != weight
        invariant Sound() && (!ok ==> Model().queues[weight].base == [])
        invariant Spec.Drain(Model(), weight, weight - j) == Spec.Drain(start, weight, weight)
        invariant |Model().ready.base| >= |start.ready.base|
        invariant added <==> |Model().ready.base| > |start.ready.base|
        decreases ok, |Model().queues[weight].base|
      {
        ghost var s := Model();
        Spec.DrainUnfolds(s, weight, weight - j);
        ok := MoveOne(weight);
        if ok {
          Spec.MoveOneCounts(s, weight);
          j := j + 1;
          added := true;
        }
      }
      Spec.DrainUnfolds(Model(), weight, weight - j);
    }

    /** The outer loop of step. */
    method Sweep() returns (added: bool)
      requires Sound() && forall k | 0 <= k < |orders| :: orders[k] in queues
      modifies this`index, this`chains, queue, repr
      ensures Sound() && Model() == Spec.Sweep(old(Model()), |orders|)
      ensures added <==> |Model().ready.base| > |old(Model()).ready.base|
    {
      hide Chain.Valid, Chain.Items, Spec.Drain, Spec.Sweep;
      ghost var start := Model();
      added := false;
      var i := |orders|;
      while i > 0
        invariant 0 <= i <= |orders| && Sound()
        invariant Spec.Sweep(Model(), i) == Spec.Sweep(start, |orders|)
        invariant |start.ready.base| <= |Model().ready.base|
        invariant added <==> |Model().ready.base| > |start.ready.base|
      {
        Spec.SweepUnfolds(Model(), i);
        i := i - 1;
        var moved := Drain(orders[i]);
        added := added || moved;
      }
      Spec.SweepUnfolds(Model(), 0);
    }

    method Step() returns (added: bool)
      requires Valid()
      modifies this`orders, this`index, this`chains, queue, repr
      ensures Valid() && Model() == Spec.Step(old(Model()))
      ensures added <==> |Model().ready.base| > |old(Model()).ready.base|
    {
      hide Spec.Valid, Chain.Valid, Chain.Items, Spec.Sweep, SortedKeys;
      Spec.StepMoves(Model());
      Spec.OrdersListed(Model());
      Spec.QueuesExist(Model());
      if |orders| != |queues| {
        orders := SortedKeys(queues.Keys);
      }
      assert Model() == Spec.Refresh(old(Model()));
      added := Sweep();
    }

    /** The unexported get without interference: the front of the ready queue, after a step if it was empty. */
    method Get() returns (t: Option<T>, weight: int)
      requires Valid()
      modifies this`orders, this`index, this`chains, queue, repr
      ensures Valid()
      ensures var s := old(Model());
        var r := if s.ready.base != [] then s else Spec.Step(s);
        if r.ready.base == [] then t == None && Model() == r
        else t == Some(r.ready.base[0].item) && Model() == r.(ready := r.ready.Get())
      ensures weight == if t.Some? && t.value in index then index[t.value].weight else 0
    {
      hide Spec.Valid, Chain.Valid, Chain.Items, Spec.Step;
      ghost var s := Model();
      if s.ready.base != [] { Spec.PopReadyValid(s); }
      t := queue.Get();
      if t.None? {
        var added := Step();
        if added {
          ghost var r := Model();
          Spec.PopReadyValid(r);
          t := queue.Get();
        }
      }
      weight := if t.Some? && t.value in index then index[t.value].weight else 0;
    }

    /** The closure returned with an item: closes its channel, which must not be closed already. */
    method Finish(item: T)
      requires Valid()
      requires item in index ==> index[item].done !in closed
      modifies this`index, this`closed
      ensures Valid() && Model() == Spec.Finish(old(Model()), item)
      ensures item !in index && index == old(index) - {item}
      ensures closed == if item in old(index) then old(closed) + [old(index)[item].done] else old(closed)
    {
      if item in index {
        closed := closed + [index[item].done];
        index := index - {item};
      }
    }

    method Len() returns (size: nat)
      requires Valid()
      ensures size == |Spec.Queued(Model())|
    {
      size := queue.Len();
      var rest := queues;
      ghost var left := Spec.Contents(chains);
      while rest.Keys != {}
        invariant rest.Keys == left.Keys && rest.Keys <= queues.Keys
        invariant forall w | w in rest :: rest[w] == queues[w] && left[w] == chains[w].Items()
        invariant size + |Bag(left)| == |Spec.Queued(Model())|
        decreases |rest|
      {
        ghost var some := Pick(rest.Keys);
        var w :| w in rest.Keys;
        var n := rest[w].Len();
        BagSplit(left, w);
        size := size + n;
        rest, left := rest - {w}, left - {w};
      }
    }
  }
}
