/** Progress accounting while a manifest waits for the blobs or child manifests it depends on. */
module Progress {
  import opened Collections

  /** A shared `atomic.Int64`; every Add is one step, recorded in `seen` by the value it leaves. */
  class Counter {
    var value: int
    ghost var seen: seq<int>

    constructor ()
      ensures value == 0 && seen == []
    {
      value, seen := 0, [];
    }

    method Add(delta: int)
      modifies this
      ensures value == old(value) + delta && seen == old(seen) + [value]
    {
      value := value + delta;
      seen := seen + [value];
    }
  }

  /** One update of a watched message. */
  datatype Update = Update(progress: int, size: int)

  /** The goroutine that follows one layer: after each update the counter is ahead by that update's progress, and
      whatever the stream says, it leaves exactly the layer's size behind. */
  method FollowLayer(progress: Counter, size: int, updates: seq<Update>)
    modifies progress
    ensures progress.value == old(progress.value) + size
    ensures progress.seen ==
      old(progress.seen) + seq(|updates|, k requires 0 <= k < |updates| => old(progress.value) + updates[k].progress)
      + [progress.value]
  {
    var prevProgress := 0;
    for i := 0 to |updates|
      invariant progress.value == old(progress.value) + prevProgress
      invariant progress.seen ==
        old(progress.seen) + seq(i, k requires 0 <= k < i => old(progress.value) + updates[k].progress)
    {
      progress.Add(updates[i].progress - prevProgress);
      prevProgress := updates[i].progress;
    }
    progress.Add(size - prevProgress);
  }

  /** The goroutine that follows one child manifest, whose size is only learnt from the stream: after each update
      both counters are ahead by what it says. */
  method FollowChild(progress: Counter, gotSize: Counter, updates: seq<Update>)
    requires progress != gotSize
    modifies progress, gotSize
    ensures gotSize.value == old(gotSize.value) + (if updates == [] then 0 else updates[|updates| - 1].size)
    ensures progress.value - old(progress.value) == gotSize.value - old(gotSize.value)
    ensures progress.seen ==
      old(progress.seen) + seq(|updates|, k requires 0 <= k < |updates| => old(progress.value) + updates[k].progress)
      + [progress.value]
    ensures gotSize.seen ==
      old(gotSize.seen) + seq(|updates|, k requires 0 <= k < |updates| => old(gotSize.value) + updates[k].size)
  {
    var prevSize, prevProgress := 0, 0;
    for i := 0 to |updates|
      invariant progress.value == old(progress.value) + prevProgress
      invariant gotSize.value == old(gotSize.value) + prevSize
      invariant prevSize == if i == 0 then 0 else updates[i - 1].size
      invariant progress.seen ==
        old(progress.seen) + seq(i, k requires 0 <= k < i => old(progress.value) + updates[k].progress)
      invariant gotSize.seen ==
        old(gotSize.seen) + seq(i, k requires 0 <= k < i => old(gotSize.value) + updates[k].size)
    {
      progress.Add(updates[i].progress - prevProgress);
      prevProgress := updates[i].progress;
      gotSize.Add(updates[i].size - prevSize);
      prevSize := updates[i].size;
    }
    progress.Add(prevSize - prevProgress);
  }

  // ---- The goroutines interleaved: one operation per access to a shared counter.

  /** `received` is the size of an update whose progress has been added but whose size has not;
      `seen` counts the updates taken from the stream. */
  datatype Watcher = Watcher(prevSize: int, prevProgress: int, received: Option<int>, seen: nat, joined: bool)

  /** `announced` is a layer whose size was added but whose watcher has not been started. */
  datatype Job = Job(index: bool, gotSize: int, progress: int, announced: Option<int>, watchers: map<nat, Watcher>)

  datatype Op =
    | Announce(size: int)
    | Start(w: nat)
    | AddProgress(w: nat, update: Update)
    | AddSize(w: nat)
    | Finish(w: nat)

  function Begin(index: bool): Job {
    Job(index, 0, 0, None, map[])
  }

  predicate Enabled(j: Job, op: Op) {
    match op
    case Announce(_) => !j.index && j.announced.None?
    case Start(w) => w !in j.watchers && (j.index || j.announced.Some?)
    case AddProgress(w, _) => w in j.watchers && !j.watchers[w].joined && j.watchers[w].received.None?
    case AddSize(w) => w in j.watchers && j.watchers[w].received.Some?
    case Finish(w) => w in j.watchers && !j.watchers[w].joined && j.watchers[w].received.None?
  }

  /** A disabled operation changes nothing, so every sequence of operations is a run. */
  function Apply(j: Job, op: Op): Job {
    if !Enabled(j, op) then j
    else
      match op
      case Announce(size) => j.(gotSize := j.gotSize + size, announced := Some(size))
      case Start(w) =>
        var size := if j.index then 0 else j.announced.value;
        j.(announced := None, watchers := j.watchers[w := Watcher(size, 0, None, 0, false)])
      case AddProgress(w, u) =>
        var x := j.watchers[w];
        var received := if j.index then Some(u.size) else None;
        j.(progress := j.progress + u.progress - x.prevProgress,
           watchers := j.watchers[w := x.(prevProgress := u.progress, received := received, seen := x.seen + 1)])
      case AddSize(w) =>
        var x := j.watchers[w];
        var size := x.received.value;
        j.(gotSize := j.gotSize + size - x.prevSize,
           watchers := j.watchers[w := x.(prevSize := size, received := None)])
      case Finish(w) =>
        var x := j.watchers[w];
        j.(progress := j.progress + x.prevSize - x.prevProgress,
           watchers := j.watchers[w := x.(joined := true)])
  }

  function Runs(j: Job, ops: seq<Op>): Job
    decreases |ops|
  {
    if ops == [] then j else Apply(Runs(j, ops[..|ops| - 1]), ops[|ops| - 1])
  }

  /** What one watcher has added to progress: what it last saw, or its full size once it is done. */
  function Share(x: Watcher): int {
    if x.joined then x.prevSize else x.prevProgress
  }

  ghost function Shares(ws: map<nat, Watcher>): map<nat, int> {
    map w | w in ws :: Share(ws[w])
  }

  ghost function Sizes(ws: map<nat, Watcher>): map<nat, int> {
    map w | w in ws :: ws[w].prevSize
  }

  function Announced(j: Job): int {
    if j.announced.Some? then j.announced.value else 0
  }

  predicate AllJoined(j: Job) {
    j.announced.None? && forall w | w in j.watchers :: j.watchers[w].joined
  }

  ghost predicate Balanced(j: Job) {
    && j.progress == Sum(Shares(j.watchers))
    && j.gotSize == Announced(j) + Sum(Sizes(j.watchers))
    && (forall w | w in j.watchers && j.watchers[w].received.Some? :: j.index && !j.watchers[w].joined)
    && (j.announced.Some? ==> !j.index)
  }

  lemma SetWatcher(ws: map<nat, Watcher>, w: nat, x: Watcher)
    ensures Sum(Shares(ws[w := x])) == Sum(Shares(ws)) + Share(x) - (if w in ws then Share(ws[w]) else 0)
    ensures Sum(Sizes(ws[w := x])) == Sum(Sizes(ws)) + x.prevSize - (if w in ws then ws[w].prevSize else 0)
  {
    assert Shares(ws[w := x]) == Shares(ws)[w := Share(x)];
    assert Sizes(ws[w := x]) == Sizes(ws)[w := x.prevSize];
    SumUpdate(Shares(ws), w, Share(x));
    SumUpdate(Sizes(ws), w, x.prevSize);
  }

  lemma BalancedStep(j: Job, op: Op)
    requires Balanced(j)
    ensures Balanced(Apply(j, op))
  {
    hide Sum, Shares, Sizes;
    if Enabled(j, op) && !op.Announce? {
      SetWatcher(j.watchers, op.w, Apply(j, op).watchers[op.w]);
    }
  }

  /** At every point of every interleaving the counters are the sums of the watchers' shares and sizes. */
  lemma {:induction false} BalancedRuns(index: bool, ops: seq<Op>)
    ensures Balanced(Runs(Begin(index), ops))
    decreases |ops|
  {
    if ops == [] {
      assert Shares(map[]) == map[] && Sizes(map[]) == map[];
    } else {
      BalancedRuns(index, ops[..|ops| - 1]);
      BalancedStep(Runs(Begin(index), ops[..|ops| - 1]), ops[|ops| - 1]);
    }
  }

  /** Once every goroutine has joined, exactly as much progress as size was added, whatever the streams said. */
  lemma Conservation(index: bool, ops: seq<Op>)
    requires AllJoined(Runs(Begin(index), ops))
    ensures Runs(Begin(index), ops).progress == Runs(Begin(index), ops).gotSize
  {
    var j := Runs(Begin(index), ops);
    BalancedRuns(index, ops);
    assert Shares(j.watchers) == Sizes(j.watchers);
  }

  lemma {:induction false} SumMonotone(a: map<nat, int>, b: map<nat, int>)
    requires a.Keys == b.Keys && forall k | k in a :: a[k] <= b[k]
    ensures Sum(a) <= Sum(b)
    decreases |a|
  {
    if a.Keys == {} {
      assert a == map[] && b == map[];
    } else {
      var k := Pick(a.Keys);
      SumSplit(a, k);
      SumSplit(b, k);
      SumMonotone(a - {k}, b - {k});
    }
  }

  // ---- When progress is ahead of size.

  predicate Within(j: Job) {
    j.progress <= j.gotSize
  }

  /** What a running watcher leaves between the size it has counted and the progress it has added. */
  function Gap(x: Watcher): int {
    if x.joined then 0 else x.prevSize - x.prevProgress
  }

  ghost function Gaps(ws: map<nat, Watcher>): map<nat, int> {
    map w | w in ws :: Gap(ws[w])
  }

  lemma {:induction false} GapsSum(ws: map<nat, Watcher>)
    ensures Sum(Gaps(ws)) == Sum(Sizes(ws)) - Sum(Shares(ws))
    decreases |ws|
  {
    if ws.Keys == {} {
      assert Gaps(ws) == map[] && Sizes(ws) == map[] && Shares(ws) == map[];
    } else {
      var w := Pick(ws.Keys);
      var rest := ws - {w};
      GapsSum(rest);
      assert Gaps(rest) == Gaps(ws) - {w} && Sizes(rest) == Sizes(ws) - {w} && Shares(rest) == Shares(ws) - {w};
      SumSplit(Gaps(ws), w);
      SumSplit(Sizes(ws), w);
      SumSplit(Shares(ws), w);
    }
  }

  /** In every run, how far progress is behind size is what the running watchers leave, plus an announced layer. */
  lemma RoomLeft(index: bool, ops: seq<Op>)
    ensures
      var j := Runs(Begin(index), ops);
      j.gotSize - j.progress == Announced(j) + Sum(Gaps(j.watchers))
  {
    BalancedRuns(index, ops);
    GapsSum(Runs(Begin(index), ops).watchers);
  }

  /** No running watcher has seen more progress than the size it has counted. */
  predicate Honest(j: Job) {
    forall w | w in j.watchers && !j.watchers[w].joined :: j.watchers[w].prevProgress <= j.watchers[w].prevSize
  }

  /** So progress is within size as long as no running watcher has seen more than its size. */
  lemma NeverOvertakes(index: bool, ops: seq<Op>)
    requires Honest(Runs(Begin(index), ops)) && Announced(Runs(Begin(index), ops)) >= 0
    ensures Within(Runs(Begin(index), ops))
  {
    RoomLeft(index, ops);
    SumBounds(Gaps(Runs(Begin(index), ops).watchers));
  }

  /** How much one operation moves progress towards size, known before it is carried out. */
  function Advance(j: Job, op: Op): int
    requires Enabled(j, op)
  {
    match op
    case Announce(size) => -size
    case Start(_) => 0
    case AddProgress(w, u) => u.progress - j.watchers[w].prevProgress
    case AddSize(w) => j.watchers[w].prevSize - j.watchers[w].received.value
    case Finish(w) => Gap(j.watchers[w])
  }

  /** An operation makes progress overtake size exactly if it advances further than the room that is left. */
  lemma OvertakesStep(j: Job, op: Op)
    requires Balanced(j) && Within(j) && Enabled(j, op)
    ensures !Within(Apply(j, op)) <==> Advance(j, op) > Announced(j) + Sum(Gaps(j.watchers))
  {
    hide Sum, Gaps, Sizes, Shares;
    GapsSum(j.watchers);
  }

  // ---- Exactly which layers and update streams keep progress within size.

  /** The layers or children of one manifest, in order: their sizes (of layers only) and the updates of their
      messages. */
  datatype Plan = Plan(index: bool, sizes: seq<int>, streams: seq<seq<Update>>)

  predicate Planned(plan: Plan) {
    !plan.index ==> |plan.sizes| == |plan.streams|
  }

  /** The operation is what some goroutine does next according to the plan. */
  predicate Allowed(plan: Plan, j: Job, op: Op)
    requires Planned(plan)
  {
    Enabled(j, op) &&
    match op
    case Announce(size) => |j.watchers| < |plan.streams| && !plan.index && size == plan.sizes[|j.watchers|]
    case Start(w) => w == |j.watchers| < |plan.streams|
    case AddProgress(w, u) =>
      w < |plan.streams| && j.watchers[w].seen < |plan.streams[w]| && u == plan.streams[w][j.watchers[w].seen]
    case AddSize(_) => true
    case Finish(w) => w < |plan.streams| && j.watchers[w].seen == |plan.streams[w]|
  }

  predicate Obeys(plan: Plan, ops: seq<Op>)
    requires Planned(plan)
    decreases |ops|
  {
    ops == [] ||
    var before := ops[..|ops| - 1];
    Obeys(plan, before) && Allowed(plan, Runs(Begin(plan.index), before), ops[|ops| - 1])
  }

  /** The size counted for w after k of its updates: a layer's own, or the last size a child reported. */
  function Counted(plan: Plan, w: nat, k: nat): int
    requires Planned(plan) && w < |plan.streams| && k <= |plan.streams[w]|
  {
    if !plan.index then plan.sizes[w] else if k == 0 then 0 else plan.streams[w][k - 1].size
  }

  function Claimed(plan: Plan, w: nat, k: nat): int
    requires w < |plan.streams| && k <= |plan.streams[w]|
  {
    if k == 0 then 0 else plan.streams[w][k - 1].progress
  }

  predicate ModestUpdate(plan: Plan, w: nat, k: nat)
    requires Planned(plan) && w < |plan.streams| && k < |plan.streams[w]|
  {
    Claimed(plan, w, k + 1) <= Counted(plan, w, k) && Claimed(plan, w, k + 1) <= Counted(plan, w, k + 1)
  }

  /** No layer has a negative size, and no update claims more than the size counted before it and after it. */
  predicate ModestAt(plan: Plan, w: nat)
    requires Planned(plan) && w < |plan.streams|
  {
    && (!plan.index ==> plan.sizes[w] >= 0)
    && forall k | 0 <= k < |plan.streams[w]| :: ModestUpdate(plan, w, k)
  }

  predicate Modest(plan: Plan)
    requires Planned(plan)
  {
    forall w | 0 <= w < |plan.streams| :: ModestAt(plan, w)
  }

  /** Watchers are numbered in order and each is where its stream says. */
  ghost predicate OnPlan(plan: Plan, j: Job)
    requires Planned(plan)
  {
    && j.index == plan.index
    && |j.watchers| <= |plan.streams|
    && (forall w :: w in j.watchers <==> 0 <= w < |j.watchers|)
    && (forall w | w in j.watchers :: WatcherOnPlan(plan, w, j.watchers[w]))
    && (j.announced.Some? ==>
          !j.index && |j.watchers| < |plan.streams| && j.announced.value == plan.sizes[|j.watchers|])
  }

  predicate WatcherOnPlan(plan: Plan, w: nat, x: Watcher)
    requires Planned(plan)
  {
    && w < |plan.streams| && x.seen <= |plan.streams[w]|
    && x.prevProgress == Claimed(plan, w, x.seen)
    && match x.received
       case None => x.prevSize == Counted(plan, w, x.seen)
       case Some(size) =>
         plan.index && x.seen > 0 && x.prevSize == Counted(plan, w, x.seen - 1) && size == Counted(plan, w, x.seen)
  }

  lemma WatcherStep(plan: Plan, j: Job, op: Op, w: nat)
    requires Planned(plan) && j.index == plan.index && Allowed(plan, j, op) && w in Apply(j, op).watchers
    requires w in j.watchers ==> WatcherOnPlan(plan, w, j.watchers[w])
    requires j.announced.Some? ==>
      !j.index && |j.watchers| < |plan.sizes| && j.announced.value == plan.sizes[|j.watchers|]
    ensures WatcherOnPlan(plan, w, Apply(j, op).watchers[w])
  {
  }

  lemma OnPlanStep(plan: Plan, j: Job, op: Op)
    requires Planned(plan) && OnPlan(plan, j) && Allowed(plan, j, op)
    ensures OnPlan(plan, Apply(j, op))
  {
    hide WatcherOnPlan;
    var t := Apply(j, op);
    if op.Start? {
      assert t.watchers.Keys == j.watchers.Keys + {op.w};
    } else {
      assert t.watchers.Keys == j.watchers.Keys;
    }
    forall w | w in t.watchers ensures WatcherOnPlan(plan, w, t.watchers[w]) { WatcherStep(plan, j, op, w); }
  }

  lemma {:induction false} OnPlanRuns(plan: Plan, ops: seq<Op>)
    requires Planned(plan) && Obeys(plan, ops)
    ensures OnPlan(plan, Runs(Begin(plan.index), ops))
    decreases |ops|
  {
    hide OnPlan, Allowed, Apply;
    if ops == [] {
      BeginOnPlan(plan);
    } else {
      OnPlanRuns(plan, ops[..|ops| - 1]);
      OnPlanStep(plan, Runs(Begin(plan.index), ops[..|ops| - 1]), ops[|ops| - 1]);
    }
  }

  lemma BeginOnPlan(plan: Plan)
    requires Planned(plan)
    ensures OnPlan(plan, Begin(plan.index))
  {
  }

  lemma ModestGap(plan: Plan, w: nat, x: Watcher)
    requires Planned(plan) && WatcherOnPlan(plan, w, x) && ModestAt(plan, w)
    ensures Gap(x) >= 0
  {
    if x.seen > 0 { assert ModestUpdate(plan, w, x.seen - 1); }
  }

  /** Modest plans never let progress overtake size. */
  lemma ModestStaysWithin(plan: Plan, ops: seq<Op>)
    requires Planned(plan) && Modest(plan) && Obeys(plan, ops)
    ensures Within(Runs(Begin(plan.index), ops))
  {
    hide Sum, Obeys, Runs;
    var j := Runs(Begin(plan.index), ops);
    OnPlanRuns(plan, ops);
    RoomLeft(plan.index, ops);
    forall w | w in j.watchers ensures Gap(j.watchers[w]) >= 0 {
      ModestGap(plan, w, j.watchers[w]);
    }
    SumBounds(Gaps(j.watchers));
    assert j.announced.Some? ==> ModestAt(plan, |j.watchers|);
  }

  /** One more operation of a run that obeys the plan. */
  lemma Next(plan: Plan, ops: seq<Op>, op: Op) returns (more: seq<Op>)
    requires Planned(plan) && Obeys(plan, ops) && Allowed(plan, Runs(Begin(plan.index), ops), op)
    ensures Obeys(plan, more) && Runs(Begin(plan.index), more) == Apply(Runs(Begin(plan.index), ops), op)
  {
    more := ops + [op];
    assert more[..|ops|] == ops;
  }

  /** Everybody but the last watcher has joined, and that one has taken k of its updates and counted them. */
  ghost predicate Alone(plan: Plan, j: Job, w: nat, k: nat)
    requires Planned(plan)
  {
    && OnPlan(plan, j) && |j.watchers| == w + 1 && j.announced.None?
    && (forall v | v in j.watchers && v != w :: j.watchers[v].joined)
    && w in j.watchers && !j.watchers[w].joined && j.watchers[w].received.None? && j.watchers[w].seen == k
  }

  ghost predicate AllDone(plan: Plan, j: Job, w: nat)
    requires Planned(plan)
  {
    OnPlan(plan, j) && |j.watchers| == w && AllJoined(j)
  }

  lemma {:induction false} RunTo(plan: Plan, w: nat) returns (ops: seq<Op>)
    requires Planned(plan) && w <= |plan.streams|
    ensures Obeys(plan, ops) && AllDone(plan, Runs(Begin(plan.index), ops), w)
    decreases w, 1, 0
  {
    if w == 0 {
      ops := [];
      BeginOnPlan(plan);
    } else {
      ops := RunAlone(plan, w - 1, |plan.streams[w - 1]|);
      ops := Next(plan, ops, Finish(w - 1));
      OnPlanRuns(plan, ops);
    }
  }

  lemma {:induction false} RunAlone(plan: Plan, w: nat, k: nat) returns (ops: seq<Op>)
    requires Planned(plan) && w < |plan.streams| && k <= |plan.streams[w]|
    ensures Obeys(plan, ops) && Alone(plan, Runs(Begin(plan.index), ops), w, k)
    decreases w, 2, k
  {
    hide Obeys, Runs;
    if k == 0 {
      ops := RunTo(plan, w);
      if !plan.index { ops := Next(plan, ops, Announce(plan.sizes[w])); }
      ops := Next(plan, ops, Start(w));
    } else {
      ops := RunAlone(plan, w, k - 1);
      ops := Next(plan, ops, AddProgress(w, plan.streams[w][k - 1]));
      if plan.index { ops := Next(plan, ops, AddSize(w)); }
    }
    OnPlanRuns(plan, ops);
  }

  /** With every other watcher joined, the room is what the last one leaves. */
  lemma LoneGap(plan: Plan, ops: seq<Op>, w: nat)
    requires Planned(plan) && w in Runs(Begin(plan.index), ops).watchers
    requires
      var ws := Runs(Begin(plan.index), ops).watchers;
      forall v | v in ws && v != w :: ws[v].joined
    ensures
      var j := Runs(Begin(plan.index), ops);
      j.gotSize - j.progress == Announced(j) + Gap(j.watchers[w])
  {
    hide Runs;
    var j := Runs(Begin(plan.index), ops);
    RoomLeft(plan.index, ops);
    var gaps := Gaps(j.watchers);
    SumSplit(gaps, w);
    NoGaps(gaps - {w});
  }

  lemma {:induction false} NoGaps(m: map<nat, int>)
    requires forall k | k in m :: m[k] == 0
    ensures Sum(m) == 0
    decreases |m|
  {
    if m.Keys != {} {
      var k := Pick(m.Keys);
      SumSplit(m, k);
      NoGaps(m - {k});
    }
  }

  /** A plan that is not modest has a run in which progress overtakes size. */
  lemma ImmodestOvertakes(plan: Plan) returns (ops: seq<Op>)
    requires Planned(plan) && !Modest(plan)
    ensures Obeys(plan, ops) && !Within(Runs(Begin(plan.index), ops))
  {
    hide Obeys, Runs;
    hide ModestUpdate, Counted, Claimed, Sum;
    var w :| 0 <= w < |plan.streams| && !ModestAt(plan, w);
    if !plan.index && plan.sizes[w] < 0 {
      ops := RunTo(plan, w);
      Conservation(plan.index, ops);
      ops := Next(plan, ops, Announce(plan.sizes[w]));
    } else {
      var k :| 0 <= k < |plan.streams[w]| && !ModestUpdate(plan, w, k);
      ops := ImmodestUpdateOvertakes(plan, w, k);
    }
  }

  lemma ImmodestUpdateOvertakes(plan: Plan, w: nat, k: nat) returns (ops: seq<Op>)
    requires Planned(plan) && w < |plan.streams| && k < |plan.streams[w]| && !ModestUpdate(plan, w, k)
    ensures Obeys(plan, ops) && !Within(Runs(Begin(plan.index), ops))
  {
    hide Obeys, Runs, Sum;
    if Claimed(plan, w, k + 1) <= Counted(plan, w, k) {
      ops := RunAlone(plan, w, k + 1);
    } else {
      ops := RunAlone(plan, w, k);
      ops := Next(plan, ops, AddProgress(w, plan.streams[w][k]));
    }
    LoneGap(plan, ops, w);
  }

  /** Exactly the modest plans keep progress within size in every interleaving of their goroutines. */
  lemma WithinIffModest(plan: Plan)
    requires Planned(plan)
    ensures (forall ops | Obeys(plan, ops) :: Within(Runs(Begin(plan.index), ops))) <==> Modest(plan)
  {
    hide Obeys, Runs, Within, Modest;
    if Modest(plan) {
      forall ops | Obeys(plan, ops) ensures Within(Runs(Begin(plan.index), ops)) { ModestStaysWithin(plan, ops); }
    } else {
      var ops := ImmodestOvertakes(plan);
    }
  }

  /** A layer or child with a single update: a layer is overtaken exactly by a claim beyond its size; a child
      also by any positive claim, because its progress is added before its size. */
  lemma FirstUpdate(index: bool, size: nat, u: Update)
    ensures
      var plan := Plan(index, [size], [[u]]);
      (exists ops :: Obeys(plan, ops) && !Within(Runs(Begin(index), ops)))
      <==> u.progress > (if index then 0 else size) || (index && u.progress > u.size)
  {
    hide Obeys, Runs;
    var plan := Plan(index, [size], [[u]]);
    WithinIffModest(plan);
    assert Modest(plan) <==> ModestAt(plan, 0);
    assert ModestAt(plan, 0) <==> ModestUpdate(plan, 0, 0);
  }

  /** The run for a child: any positive claim is ahead of the size until the size of the same update is added. */
  lemma ChildOvertakes(u: Update)
    requires u.progress > 0
    ensures
      var j := Runs(Begin(true), [Start(0), AddProgress(0, u)]);
      j.progress == u.progress && j.gotSize == 0 && Apply(j, AddSize(0)).gotSize == u.size
  {
    var started := [Start(0)];
    assert started[..0] == [] && Runs(Begin(true), started) == Apply(Begin(true), Start(0));
    assert [Start(0), AddProgress(0, u)][..1] == started;
  }

  /** The run for a layer: a claim beyond its size, which a message that existed before may make. */
  lemma LayerOvertakes(size: int, u: Update)
    requires u.progress > size
    ensures
      var j := Runs(Begin(false), [Announce(size), Start(0), AddProgress(0, u)]);
      j.progress == u.progress && j.gotSize == size
  {
    var announced := [Announce(size)];
    var started := [Announce(size), Start(0)];
    assert announced[..0] == [] && Runs(Begin(false), announced) == Apply(Begin(false), Announce(size));
    assert started[..1] == announced && Runs(Begin(false), started) == Apply(Runs(Begin(false), announced), Start(0));
    assert [Announce(size), Start(0), AddProgress(0, u)][..2] == started;
  }
}
