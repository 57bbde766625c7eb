/** The handlers of pkg/queue/controller/message.go and its scheduler as interleaved steps on
    the message table: every statement is one step, so a handler that reads and then writes
    can be overtaken by any other between the two. Clients are arbitrary. */
module LeaseProtocol {
  import opened Collections
  import opened MessageTable

  /** A handler or scheduler pass between two of its statements, with what it remembers. */
  datatype Proc =
    | Beating(id: nat, lease: string, data: Attr)
    | Failing(id: nat, lease: string, data: Attr)
    | Bumping(id: nat, priority: int)
    | Inserting(content: string, priority: int, data: Attr)
    | Resetting(ids: seq<nat>)
    | Deleting(ids: seq<nat>)

  /** What happened to a message, recorded when a statement matched its row. */
  datatype Event =
    | Created(id: nat)
    | Consumed(id: nat, lease: string, at: nat)
    | Beat(id: nat, lease: string, at: nat)
    | Finished(id: nat, lease: string)
    | FailedBy(id: nat, lease: string)
    | Canceled(id: nat, lease: string)
    | Reset(id: nat)
    | Removed(id: nat)

  /** `clock` is the database's time. `log` and `born` are records: the events so far and the
      attributes each message was created with. */
  datatype Sys =
    Sys(rows: Rows, next: nat, procs: map<nat, Proc>, clock: nat, log: seq<Event>, born: map<nat, Attr>)

  datatype Op =
    | CreateRead(p: nat, content: string, priority: int, data: Attr, found: Option<nat>)
    | CreateWrite(p: nat)
    | ConsumeNow(id: nat, lease: string)
    | BeatRead(p: nat, id: nat, lease: string, progress: int, size: int)
    | BeatWrite(p: nat)
    | CompleteNow(id: nat, lease: string)
    | FailRead(p: nat, id: nat, lease: string, error: string)
    | FailWrite(p: nat)
    | CancelNow(id: nat, lease: string)
    | StaleRead(p: nat, ids: seq<nat>, horizon: nat)
    | ResetNext(p: nat)
    | OldRead(p: nat, ids: seq<nat>)
    | DeleteNext(p: nat)
    | CleanUpNow(horizon: nat)
    | Abandon(p: nat)
    | Advance(to: nat)

  function Start(): Sys { Sys(map[], 10000, map[], 0, [], map[]) }

  /** Requests with an empty lease are refused before they reach the table; a read of a
      missing row ends the handler. A row is stale if its last heartbeat lies before some horizon
      in the past, a minute ago in the program; which of them the query returns, and which rows
      are old enough to delete, is left open. The clock never goes back. */
  predicate Enabled(s: Sys, op: Op) {
    match op
    case CreateRead(p, content, _, _, found) =>
      && p !in s.procs
      && (if found.Some? then Live(s.rows, found.value) && s.rows[found.value].content == content
          else forall id | id in s.rows && Live(s.rows, id) :: s.rows[id].content != content)
    case CreateWrite(p) => p in s.procs && (s.procs[p].Bumping? || s.procs[p].Inserting?)
    case ConsumeNow(_, lease) => lease != ""
    case BeatRead(p, id, lease, _, _) => p !in s.procs && lease != "" && Live(s.rows, id)
    case BeatWrite(p) => p in s.procs && s.procs[p].Beating?
    case CompleteNow(_, lease) => lease != ""
    case FailRead(p, id, lease, _) => p !in s.procs && lease != "" && Live(s.rows, id)
    case FailWrite(p) => p in s.procs && s.procs[p].Failing?
    case CancelNow(_, lease) => lease != ""
    case StaleRead(p, ids, horizon) =>
      && p !in s.procs && horizon <= s.clock
      && forall id | id in ids :: Live(s.rows, id) && s.rows[id].status.Processing? && s.rows[id].beat < horizon
    case ResetNext(p) => p in s.procs && s.procs[p].Resetting? && s.procs[p].ids != []
    case OldRead(p, ids) => p !in s.procs && forall id | id in ids :: Live(s.rows, id) && Final(s.rows[id].status)
    case DeleteNext(p) => p in s.procs && s.procs[p].Deleting? && s.procs[p].ids != []
    case CleanUpNow(_) => true
    case Abandon(p) => p in s.procs
    case Advance(to) => to >= s.clock
  }

  /** The heartbeat handler changes progress and size of the attributes it read, nothing else. */
  function Merge(data: Attr, progress: int, size: int): Attr {
    data.(progress := if progress != 0 then progress else data.progress, size := if size > 0 then size else data.size)
  }

  function Note(s: Sys, matched: bool, e: Event): seq<Event> { if matched then s.log + [e] else s.log }

  function Apply(s: Sys, op: Op): Sys
    requires Enabled(s, op)
  {
    match op
    case CreateRead(p, content, priority, data, found) =>
      if found.None? then s.(procs := s.procs[p := Inserting(content, priority, data)])
      else if s.rows[found.value].status.Pending? && priority > s.rows[found.value].priority then
        s.(procs := s.procs[p := Bumping(found.value, priority)])
      else s
    case CreateWrite(p) =>
      (match s.procs[p]
       case Bumping(id, priority) =>
         s.(rows := UpdatePriority(s.rows, id, priority), procs := s.procs - {p})
       case Inserting(content, priority, data) =>
         s.(rows := Insert(s.rows, s.next, content, priority, data, s.clock), next := s.next + 1,
            procs := s.procs - {p}, log := s.log + [Created(s.next)], born := s.born[s.next := data])
       case _ => s)
    case ConsumeNow(id, lease) =>
      s.(rows := Consume(s.rows, id, lease), log := Note(s, Free(s.rows, id), Consumed(id, lease, s.clock)))
    case BeatRead(p, id, lease, progress, size) =>
      s.(procs := s.procs[p := Beating(id, lease, Merge(s.rows[id].data, progress, size))])
    case BeatWrite(p) =>
      var b := s.procs[p];
      s.(rows := Heartbeat(s.rows, b.id, b.data, b.lease, s.clock), procs := s.procs - {p},
         log := Note(s, HeldBy(s.rows, b.id, b.lease), Beat(b.id, b.lease, s.clock)))
    case CompleteNow(id, lease) =>
      s.(rows := Complete(s.rows, id, lease), log := Note(s, HeldBy(s.rows, id, lease), Finished(id, lease)))
    case FailRead(p, id, lease, error) =>
      s.(procs := s.procs[p := Failing(id, lease, s.rows[id].data.(error := error))])
    case FailWrite(p) =>
      var f := s.procs[p];
      s.(rows := Fail(s.rows, f.id, f.lease, f.data), procs := s.procs - {p},
         log := Note(s, HeldBy(s.rows, f.id, f.lease), FailedBy(f.id, f.lease)))
    case CancelNow(id, lease) =>
      s.(rows := Cancel(s.rows, id, lease), log := Note(s, HeldBy(s.rows, id, lease), Canceled(id, lease)))
    case StaleRead(p, ids, _) => s.(procs := s.procs[p := Resetting(ids)])
    case ResetNext(p) =>
      var ids := s.procs[p].ids;
      s.(rows := ResetToPending(s.rows, ids[0]), procs := s.procs[p := Resetting(ids[1..])],
         log := Note(s, Live(s.rows, ids[0]) && s.rows[ids[0]].status.Processing?, Reset(ids[0])))
    case OldRead(p, ids) => s.(procs := s.procs[p := Deleting(ids)])
    case DeleteNext(p) =>
      var ids := s.procs[p].ids;
      s.(rows := Delete(s.rows, ids[0], s.clock), procs := s.procs[p := Deleting(ids[1..])],
         log := Note(s, Live(s.rows, ids[0]), Removed(ids[0])))
    case CleanUpNow(horizon) => s.(rows := CleanUp(s.rows, horizon))
    case Abandon(p) => s.(procs := s.procs - {p})
    case Advance(to) => s.(clock := to)
  }

  ghost predicate Runs(s: Sys, ops: seq<Op>)
    decreases |ops|
  {
    ops == [] || (Enabled(s, ops[0]) && Runs(Apply(s, ops[0]), ops[1..]))
  }

  ghost function After(s: Sys, ops: seq<Op>): Sys
    requires Runs(s, ops)
    decreases |ops|
  {
    if ops == [] then s else After(Apply(s, ops[0]), ops[1..])
  }

  // ---- what the log says about one message ----

  datatype Tally = Tally(owner: Option<string>, consumes: nat, completes: nat, failures: nat, cancels: nat, resets: nat)

  function Count(t: Tally, e: Event): Tally {
    match e
    case Consumed(_, lease, _) => t.(owner := Some(lease), consumes := t.consumes + 1)
    case Finished(_, _) => t.(owner := None, completes := t.completes + 1)
    case FailedBy(_, _) => t.(owner := None, failures := t.failures + 1)
    case Canceled(_, _) => t.(owner := None, cancels := t.cancels + 1)
    case Reset(_) => t.(owner := None, resets := t.resets + 1)
    case _ => t
  }

  function TallyOf(log: seq<Event>, id: nat): Tally {
    if log == [] then Tally(None, 0, 0, 0, 0, 0)
    else
      var t, e := TallyOf(log[..|log| - 1], id), log[|log| - 1];
      if e.id == id then Count(t, e) else t
  }

  /** The message is over: completed, failed, or cleaned up after that. */
  predicate Over(s: Sys, id: nat) { id in s.born && (id !in s.rows || Final(s.rows[id].status)) }

  predicate Held(s: Sys, id: nat) { id in s.rows && s.rows[id].status.Processing? }

  /** The books balance: every successful consume is matched by one ending, except the one
      that is still going on. */
  ghost predicate Balanced(s: Sys, id: nat) {
    var t := TallyOf(s.log, id);
    && t.owner == (if Held(s, id) then Some(s.rows[id].lease) else None)
    && t.consumes == t.completes + t.failures + t.cancels + t.resets + (if Held(s, id) then 1 else 0)
    && t.completes + t.failures == (if Over(s, id) then 1 else 0)
    && (id !in s.born ==> id !in s.rows && t.consumes == t.cancels == t.resets == 0)
    && (id in s.born ==> id < s.next)
  }

  /** The event was right to happen, given the events before it. */
  ghost predicate Rightful(t: Tally, e: Event) {
    match e
    case Created(_) => t == Tally(None, 0, 0, 0, 0, 0)
    case Consumed(_, _, _) => t.owner.None? && t.completes + t.failures == 0
    case Beat(_, l, _) => t.owner == Some(l)
    case Finished(_, l) => t.owner == Some(l)
    case FailedBy(_, l) => t.owner == Some(l)
    case Canceled(_, l) => t.owner == Some(l)
    case Reset(_) => t.owner.Some?
    case Removed(_) => t.completes + t.failures == 1
  }

  ghost predicate AllRightful(log: seq<Event>) {
    forall k | 0 <= k < |log| :: Rightful(TallyOf(log[..k], log[k].id), log[k])
  }

  // ---- rows and handler snapshots ----

  /** The attributes a message was created with that nothing may change. */
  predicate SameOrigin(a: Attr, b: Attr) {
    a.kind == b.kind && a.host == b.host && a.image == b.image && a.deep == b.deep
  }

  ghost predicate RowOK(s: Sys, id: nat) {
    id in s.rows ==>
      var r := s.rows[id];
      && (r.lease != "" <==> r.status.Processing?)
      && (r.deleted.Some? ==> Final(r.status))
      && id in s.born && SameOrigin(r.data, s.born[id])
      && (s.born[id].error == "" && r.data.error != "" ==> r.status.Failed?)
  }

  ghost predicate ProcOK(s: Sys, p: nat) {
    p in s.procs ==>
      match s.procs[p]
      case Beating(id, lease, data) =>
        && lease != "" && id in s.born && SameOrigin(data, s.born[id])
        && (s.born[id].error == "" && data.error != "" ==> Over(s, id))
      case Failing(id, lease, data) => lease != "" && id in s.born && SameOrigin(data, s.born[id])
      case Deleting(ids) => forall id | id in ids :: Over(s, id)
      case _ => true
  }

  ghost predicate Inv(s: Sys) {
    && (forall id: nat :: RowOK(s, id))
    && (forall id: nat :: Balanced(s, id))
    && (forall p: nat :: ProcOK(s, p))
    && AllRightful(s.log)
  }

  // ---- every step keeps the invariant ----

  lemma TallyAppend(log: seq<Event>, e: Event, id: nat)
    ensures TallyOf(log + [e], id) == if e.id == id then Count(TallyOf(log, id), e) else TallyOf(log, id)
  {
    assert (log + [e])[..|log|] == log;
  }

  lemma RightfulAppend(log: seq<Event>, e: Event)
    requires AllRightful(log) && Rightful(TallyOf(log, e.id), e)
    ensures AllRightful(log + [e])
  {
    forall k | 0 <= k < |log + [e]| ensures Rightful(TallyOf((log + [e])[..k], (log + [e])[k].id), (log + [e])[k]) {
      if k < |log| { assert (log + [e])[..k] == log[..k]; } else { assert (log + [e])[..k] == log; }
    }
  }

  lemma OverStays(s: Sys, op: Op, id: nat)
    requires Enabled(s, op) && Over(s, id) && Balanced(s, id)
    ensures Over(Apply(s, op), id)
  {
    hide TallyOf;
  }

  /** The event an op records, if its statement matches a row. */
  function EventOf(s: Sys, op: Op): Option<Event>
    requires Enabled(s, op)
  {
    match op
    case CreateWrite(p) => if s.procs[p].Inserting? then Some(Created(s.next)) else None
    case ConsumeNow(id, l) => if Free(s.rows, id) then Some(Consumed(id, l, s.clock)) else None
    case BeatWrite(p) =>
      var b := s.procs[p];
      if HeldBy(s.rows, b.id, b.lease) then Some(Beat(b.id, b.lease, s.clock)) else None
    case CompleteNow(id, l) => if HeldBy(s.rows, id, l) then Some(Finished(id, l)) else None
    case FailWrite(p) =>
      var f := s.procs[p];
      if HeldBy(s.rows, f.id, f.lease) then Some(FailedBy(f.id, f.lease)) else None
    case CancelNow(id, l) => if HeldBy(s.rows, id, l) then Some(Canceled(id, l)) else None
    case ResetNext(p) =>
      var id := s.procs[p].ids[0];
      if Live(s.rows, id) && s.rows[id].status.Processing? then Some(Reset(id)) else None
    case DeleteNext(p) => var id := s.procs[p].ids[0]; if Live(s.rows, id) then Some(Removed(id)) else None
    case _ => None
  }

  lemma LogStep(s: Sys, op: Op)
    requires Inv(s) && Enabled(s, op)
    ensures var e := EventOf(s, op);
      && Apply(s, op).log == (if e.Some? then s.log + [e.value] else s.log)
      && (e.Some? ==> Rightful(TallyOf(s.log, e.value.id), e.value))
  {
    hide AllRightful, TallyOf;
    var e := EventOf(s, op);
    if e.Some? {
      var id := e.value.id;
      assert RowOK(s, id) && Balanced(s, id);
      if op.DeleteNext? { assert ProcOK(s, op.p); }
    }
  }

  lemma BalanceStep(s: Sys, op: Op, id: nat)
    requires Inv(s) && Enabled(s, op)
    ensures Balanced(Apply(s, op), id)
  {
    hide AllRightful, TallyOf;
    LogStep(s, op);
    assert RowOK(s, id) && Balanced(s, id);
    var e := EventOf(s, op);
    if e.Some? { TallyAppend(s.log, e.value, id); }
  }

  lemma RowStep(s: Sys, op: Op, id: nat)
    requires Inv(s) && Enabled(s, op)
    ensures RowOK(Apply(s, op), id)
  {
    hide AllRightful, TallyOf;
    assert RowOK(s, id) && Balanced(s, id);
    if op.BeatWrite? || op.FailWrite? || op.DeleteNext? { assert ProcOK(s, op.p); }
  }

  lemma ProcStep(s: Sys, op: Op, p: nat)
    requires Inv(s) && Enabled(s, op)
    ensures ProcOK(Apply(s, op), p)
  {
    hide AllRightful;
    assert ProcOK(s, p);
    var t := Apply(s, op);
    forall id: nat | Over(s, id) ensures Over(t, id) {
      assert Balanced(s, id);
      OverStays(s, op, id);
    }
    if p in s.procs && (s.procs[p].Beating? || s.procs[p].Failing?) { assert Balanced(s, s.procs[p].id); }
    if op.BeatRead? || op.FailRead? { assert RowOK(s, op.id) && Balanced(s, op.id); }
    if op.OldRead? {
      forall id | id in op.ids ensures Over(s, id) { assert RowOK(s, id); }
    }
  }

  lemma InvStep(s: Sys, op: Op)
    requires Inv(s) && Enabled(s, op)
    ensures Inv(Apply(s, op))
  {
    hide RowOK, Balanced, ProcOK, AllRightful, Apply, EventOf;
    var t := Apply(s, op);
    forall id: nat ensures RowOK(t, id) { RowStep(s, op, id); }
    forall id: nat ensures Balanced(t, id) { BalanceStep(s, op, id); }
    forall p: nat ensures ProcOK(t, p) { ProcStep(s, op, p); }
    LogStep(s, op);
    var e := EventOf(s, op);
    if e.Some? { RightfulAppend(s.log, e.value); }
  }

  lemma {:induction false} RunKeeps(s: Sys, ops: seq<Op>)
    requires Inv(s) && Runs(s, ops)
    ensures Inv(After(s, ops))
    decreases |ops|
  {
    hide Inv, Enabled, Apply;
    if ops != [] {
      InvStep(s, ops[0]);
      RunKeeps(Apply(s, ops[0]), ops[1..]);
    }
  }

  lemma Reachable(ops: seq<Op>)
    requires Runs(Start(), ops)
    ensures Inv(After(Start(), ops))
  {
    assert forall id :: TallyOf([], id) == Tally(None, 0, 0, 0, 0, 0);
    RunKeeps(Start(), ops);
  }

  // ---- main results ----

  /** Lease safety: in every reachable state a row carries a lease exactly when it is being
      processed; a deleted row is finished; so a live pending row can always be consumed. */
  lemma LeaseSafety(ops: seq<Op>, id: nat, lease: string)
    requires Runs(Start(), ops) && lease != ""
    ensures var s := After(Start(), ops);
      id in s.rows ==>
        && (s.rows[id].lease != "" <==> s.rows[id].status.Processing?)
        && (s.rows[id].deleted.Some? ==> Final(s.rows[id].status))
        && (s.rows[id].status.Pending? ==> HeldBy(Consume(s.rows, id, lease), id, lease))
  {
    Reachable(ops);
    assert RowOK(After(Start(), ops), id);
  }

  predicate Ends(e: Event, id: nat) {
    e.id == id && (e.Finished? || e.FailedBy? || e.Canceled? || e.Reset?)
  }

  predicate ByLease(e: Event, lease: string) {
    (e.Beat? || e.Finished? || e.FailedBy? || e.Canceled?) && e.lease == lease
  }

  lemma {:induction false} OwnerSince(log: seq<Event>, id: nat, lease: string) returns (j: nat)
    requires TallyOf(log, id).owner == Some(lease)
    ensures j < |log| && log[j].Consumed? && log[j].id == id && log[j].lease == lease
    ensures forall k | j < k < |log| :: !Ends(log[k], id) && !(log[k].Consumed? && log[k].id == id)
  {
    var n := |log| - 1;
    if log[n].Consumed? && log[n].id == id {
      j := n;
    } else {
      j := OwnerSince(log[..n], id, lease);
    }
  }

  /** Fencing: in every run, a heartbeat, completion, failure or cancellation that took effect
      under a lease comes after a consume under that very lease with no ending of the message
      and no other consume in between. */
  lemma Fencing(ops: seq<Op>, k: nat, lease: string) returns (j: nat)
    requires Runs(Start(), ops)
    requires k < |After(Start(), ops).log| && ByLease(After(Start(), ops).log[k], lease)
    ensures var log := After(Start(), ops).log; var id := log[k].id;
      && j < k && log[j].Consumed? && log[j].id == id && log[j].lease == lease
      && forall m | j < m < k :: !Ends(log[m], id) && !(log[m].Consumed? && log[m].id == id)
  {
    Reachable(ops);
    var log := After(Start(), ops).log;
    assert Rightful(TallyOf(log[..k], log[k].id), log[k]);
    j := OwnerSince(log[..k], log[k].id, lease);
  }

  /** Between two successful consumes of one message it was released or reset. */
  lemma ConsumesAlternate(ops: seq<Op>, i: nat, k: nat) returns (m: nat)
    requires Runs(Start(), ops)
    requires var log := After(Start(), ops).log;
      i < k < |log| && log[i].Consumed? && log[k].Consumed? && log[i].id == log[k].id
    ensures i < m < k && Ends(After(Start(), ops).log[m], After(Start(), ops).log[i].id)
  {
    Reachable(ops);
    var log := After(Start(), ops).log;
    assert Rightful(TallyOf(log[..k], log[k].id), log[k]);
    m := EndedSince(log[..k], i);
  }

  lemma {:induction false} EndedSince(log: seq<Event>, i: nat) returns (m: nat)
    requires i < |log| && log[i].Consumed? && TallyOf(log, log[i].id).owner.None?
    ensures i < m < |log| && Ends(log[m], log[i].id)
  {
    var n := |log| - 1;
    if n > i && Ends(log[n], log[i].id) {
      m := n;
    } else {
      m := EndedSince(log[..n], i);
    }
  }

  /** Ownership accounting, message by message, at the end of every run. */
  lemma Accounting(ops: seq<Op>, id: nat)
    requires Runs(Start(), ops)
    ensures var s := After(Start(), ops); var t := TallyOf(s.log, id);
      && t.consumes == t.completes + t.failures + t.cancels + t.resets + (if Held(s, id) then 1 else 0)
      && t.completes + t.failures <= 1
      && (t.completes + t.failures == 1 <==> Over(s, id))
  {
    Reachable(ops);
    assert Balanced(After(Start(), ops), id);
  }

  /** A finished message stays as it is, apart from its priority and its deletion. */
  lemma FinalStep(s: Sys, op: Op, id: nat)
    requires Inv(s) && Enabled(s, op) && id in s.rows && Final(s.rows[id].status)
    ensures var t := Apply(s, op);
      && id in t.born
      && (id in t.rows ==>
        t.rows[id] == s.rows[id].(priority := t.rows[id].priority, deleted := t.rows[id].deleted))
  {
    assert Balanced(s, id) && RowOK(s, id);
  }

  lemma {:induction false} FinalForever(s: Sys, ops: seq<Op>, id: nat)
    requires Inv(s) && Runs(s, ops) && id in s.rows && Final(s.rows[id].status)
    ensures var t := After(s, ops);
      id in t.rows ==>
        t.rows[id] == s.rows[id].(priority := t.rows[id].priority, deleted := t.rows[id].deleted)
    decreases |ops|
  {
    hide Inv, Enabled, Apply;
    if ops != [] {
      var t := Apply(s, ops[0]);
      InvStep(s, ops[0]);
      FinalStep(s, ops[0], id);
      if id in t.rows { FinalForever(t, ops[1..], id); } else { GoneForever(t, ops[1..], id); }
    }
  }

  lemma GoneStep(s: Sys, op: Op, id: nat)
    requires Balanced(s, id) && Enabled(s, op) && id in s.born && id !in s.rows
    ensures id in Apply(s, op).born && id !in Apply(s, op).rows
  {
    hide TallyOf;
  }

  lemma {:induction false} GoneForever(s: Sys, ops: seq<Op>, id: nat)
    requires Inv(s) && Runs(s, ops) && id in s.born && id !in s.rows
    ensures id !in After(s, ops).rows
    decreases |ops|
  {
    hide Apply, Enabled, Balanced, RowOK, ProcOK, AllRightful;
    if ops != [] {
      assert Balanced(s, id);
      GoneStep(s, ops[0], id);
      InvStep(s, ops[0]);
      GoneForever(Apply(s, ops[0]), ops[1..], id);
    }
  }

  /** DeleteByID has no guard on the status and runs from an earlier snapshot, yet every
      message that was ever deleted had been completed or failed before. */
  lemma OnlyFinishedAreRemoved(ops: seq<Op>, k: nat)
    requires Runs(Start(), ops)
    requires k < |After(Start(), ops).log| && After(Start(), ops).log[k].Removed?
    ensures var log := After(Start(), ops).log;
      exists j :: 0 <= j < k && log[j].id == log[k].id && (log[j].Finished? || log[j].FailedBy?)
  {
    Reachable(ops);
    var log := After(Start(), ops).log;
    assert Rightful(TallyOf(log[..k], log[k].id), log[k]);
    var j := EndingOf(log[..k], log[k].id);
  }

  lemma {:induction false} EndingOf(log: seq<Event>, id: nat) returns (j: nat)
    requires TallyOf(log, id).completes + TallyOf(log, id).failures > 0
    ensures j < |log| && log[j].id == id && (log[j].Finished? || log[j].FailedBy?)
  {
    var n := |log| - 1;
    if log[n].id == id && (log[n].Finished? || log[n].FailedBy?) {
      j := n;
    } else {
      j := EndingOf(log[..n], id);
    }
  }

  /** Although heartbeat and failed write back attributes they read earlier, no interleaving
      changes a message's kind, host, image or depth, and a message created without an error
      shows one only when it has failed. */
  lemma AttributesSurvive(ops: seq<Op>, id: nat)
    requires Runs(Start(), ops)
    ensures var s := After(Start(), ops);
      id in s.rows ==>
        && id in s.born && SameOrigin(s.rows[id].data, s.born[id])
        && (s.born[id].error == "" && s.rows[id].data.error != "" ==> s.rows[id].status.Failed?)
  {
    Reachable(ops);
    assert RowOK(After(Start(), ops), id);
  }

  /** One live message per content is kept by exactly the steps that do not insert a content that
      has meanwhile been inserted. */
  lemma UniqueStep(s: Sys, op: Op)
    requires Inv(s) && Enabled(s, op) && UniqueContent(s.rows)
    ensures UniqueContent(Apply(s, op).rows) <==>
      !(op.CreateWrite? && s.procs[op.p].Inserting? && Listed(s.rows, s.procs[op.p].content))
  {
    hide AllRightful, TallyOf;
    var t := Apply(s, op);
    if op.CreateWrite? && s.procs[op.p].Inserting? {
      assert Balanced(s, s.next);
      var content := s.procs[op.p].content;
      assert Live(t.rows, s.next) && t.rows[s.next].content == content;
      if Listed(s.rows, content) {
        var id :| Live(s.rows, id) && s.rows[id].content == content;
        assert Live(t.rows, id) && t.rows[id].content == content;
      }
    } else {
      forall id | Live(t.rows, id) ensures Live(s.rows, id) && s.rows[id].content == t.rows[id].content {}
    }
  }

  /** The program does not keep one live message per content: two creations that both read
      before either writes make two. */
  lemma RacingCreations(content: string, data: Attr)
    ensures
      var o0, o1 := CreateRead(0, content, 0, data, None), CreateRead(1, content, 0, data, None);
      var ops := [o0, o1, CreateWrite(0), CreateWrite(1)];
      && Runs(Start(), ops)
      && var rows := After(Start(), ops).rows;
      && Live(rows, 10000) && Live(rows, 10001) && rows[10000].content == content == rows[10001].content
  {
    var o0, o1 := CreateRead(0, content, 0, data, None), CreateRead(1, content, 0, data, None);
    var w0, w1 := CreateWrite(0), CreateWrite(1);
    var s1 := Apply(Start(), o0);
    var s2 := Apply(s1, o1);
    var s3 := Apply(s2, w0);
    RunsFirst(s3, w1, []);
    RunsFirst(s2, w0, [w1]);
    RunsFirst(s1, o1, [w0, w1]);
    RunsFirst(Start(), o0, [o1, w0, w1]);
  }

  lemma RunsFirst(s: Sys, op: Op, rest: seq<Op>)
    requires Enabled(s, op) && Runs(Apply(s, op), rest)
    ensures Runs(s, [op] + rest) && After(s, [op] + rest) == After(Apply(s, op), rest)
  {
    assert ([op] + rest)[1..] == rest;
  }

  /** A reset does not hit silent holders only: from any state with a held message whose last
      heartbeat is old, a heartbeat that takes effect after the scheduler's query does not stop
      the reset that follows. */
  lemma ResetOvertakesHeartbeat(s: Sys, id: nat, lease: string, p: nat, q: nat, horizon: nat)
    requires HeldBy(s.rows, id, lease) && lease != "" && p != q && p !in s.procs && q !in s.procs
    requires s.rows[id].beat < horizon <= s.clock
    ensures
      var ops := [StaleRead(p, [id], horizon), BeatRead(q, id, lease, 0, 0), BeatWrite(q), ResetNext(p)];
      && Runs(s, ops)
      && After(s, ops).log == s.log + [Beat(id, lease, s.clock)] + [Reset(id)]
      && Free(After(s, ops).rows, id) && After(s, ops).rows[id].beat == s.clock
  {
    var o0, o1, o2, o3 := StaleRead(p, [id], horizon), BeatRead(q, id, lease, 0, 0), BeatWrite(q), ResetNext(p);
    var s1 := Apply(s, o0);
    var s2 := Apply(s1, o1);
    var s3 := Apply(s2, o2);
    assert HeldBy(s3.rows, id, lease) && s3.rows[id].beat == s.clock;
    RunsFirst(s3, o3, []);
    RunsFirst(s2, o2, [o3]);
    RunsFirst(s1, o1, [o2, o3]);
    RunsFirst(s, o0, [o1, o2, o3]);
  }

  // ---- What the two-step handlers write, however late their second statement comes.

  /** No operation of the run is the second statement of p or abandons it. */
  predicate Undisturbed(ops: seq<Op>, p: nat) {
    forall k | 0 <= k < |ops| :: ops[k] !in {BeatWrite(p), FailWrite(p), CreateWrite(p), Abandon(p)}
  }

  lemma {:induction false} HandlerWaits(s: Sys, ops: seq<Op>, p: nat)
    requires Runs(s, ops) && p in s.procs && !s.procs[p].Resetting? && !s.procs[p].Deleting?
    requires Undisturbed(ops, p)
    ensures p in After(s, ops).procs && After(s, ops).procs[p] == s.procs[p]
    decreases |ops|
  {
    hide Enabled;
    if ops != [] {
      WaitStep(s, ops[0], p);
      HandlerWaits(Apply(s, ops[0]), ops[1..], p);
    }
  }

  lemma WaitStep(s: Sys, op: Op, p: nat)
    requires Enabled(s, op) && p in s.procs && !s.procs[p].Resetting? && !s.procs[p].Deleting?
    requires op !in {BeatWrite(p), FailWrite(p), CreateWrite(p), Abandon(p)}
    ensures p in Apply(s, op).procs && Apply(s, op).procs[p] == s.procs[p]
  {
  }

  /** A heartbeat sets progress if it is not zero and size if it is positive, keeps every other attribute it read
      when it began, and sets the time to the clock when it is written; nothing else of the row changes. */
  lemma HeartbeatWrites(s: Sys, p: nat, id: nat, lease: string, progress: int, size: int, between: seq<Op>)
    requires Enabled(s, BeatRead(p, id, lease, progress, size))
    requires Runs(Apply(s, BeatRead(p, id, lease, progress, size)), between)
    requires Undisturbed(between, p)
    ensures
      var t := After(Apply(s, BeatRead(p, id, lease, progress, size)), between);
      && Enabled(t, BeatWrite(p))
      && var rows := Apply(t, BeatWrite(p)).rows;
      && var was := s.rows[id].data;
      if HeldBy(t.rows, id, lease) then
        && rows.Keys == t.rows.Keys && (forall other | other in rows && other != id :: rows[other] == t.rows[other])
        && rows[id] == t.rows[id].(beat := t.clock, data := rows[id].data)
        && rows[id].data == was.(progress := rows[id].data.progress, size := rows[id].data.size)
        && rows[id].data.progress == (if progress != 0 then progress else was.progress)
        && rows[id].data.size == (if size > 0 then size else was.size)
      else rows == t.rows
  {
    HandlerWaits(Apply(s, BeatRead(p, id, lease, progress, size)), between, p);
    hide Runs, After;
  }

  /** A failure ends the message, sets its error, and keeps every other attribute it read when it began. */
  lemma FailureWrites(s: Sys, p: nat, id: nat, lease: string, error: string, between: seq<Op>)
    requires Enabled(s, FailRead(p, id, lease, error))
    requires Runs(Apply(s, FailRead(p, id, lease, error)), between)
    requires Undisturbed(between, p)
    ensures
      var t := After(Apply(s, FailRead(p, id, lease, error)), between);
      && Enabled(t, FailWrite(p))
      && var rows := Apply(t, FailWrite(p)).rows;
      if HeldBy(t.rows, id, lease) then
        && rows.Keys == t.rows.Keys && (forall other | other in rows && other != id :: rows[other] == t.rows[other])
        && rows[id] == t.rows[id].(status := Status.Failed, lease := "", data := s.rows[id].data.(error := error))
      else rows == t.rows
  {
    HandlerWaits(Apply(s, FailRead(p, id, lease, error)), between, p);
    hide Runs, After;
  }

  /** A creation that found nothing inserts a pending, unleased row as requested under the next id; one that found a
      pending message of lower priority raises that if it is still lower; any other is over at once. */
  lemma CreationWrites(s: Sys, p: nat, content: string, priority: int, data: Attr, found: Option<nat>, between: seq<Op>)
    requires Enabled(s, CreateRead(p, content, priority, data, found))
    requires Runs(Apply(s, CreateRead(p, content, priority, data, found)), between) && Undisturbed(between, p)
    requires found.Some? ==> s.rows[found.value].status == Pending && s.rows[found.value].priority < priority
    ensures
      var t := After(Apply(s, CreateRead(p, content, priority, data, found)), between);
      && Enabled(t, CreateWrite(p))
      && var rows := Apply(t, CreateWrite(p)).rows;
      if found.None? then
        rows == t.rows[t.next := Row(content, "", priority, Pending, data, t.clock, None)]
      else if found.value in t.rows && t.rows[found.value].deleted == None
              && t.rows[found.value].priority < priority then
        rows == t.rows[found.value := t.rows[found.value].(priority := priority)]
      else rows == t.rows
  {
    HandlerWaits(Apply(s, CreateRead(p, content, priority, data, found)), between, p);
    hide Runs, After;
  }

  lemma CreationEnds(s: Sys, p: nat, content: string, priority: int, data: Attr, found: nat)
    requires Enabled(s, CreateRead(p, content, priority, data, Some(found)))
    requires s.rows[found].status != Pending || s.rows[found].priority >= priority
    ensures Apply(s, CreateRead(p, content, priority, data, Some(found))) == s
  {
  }
}
