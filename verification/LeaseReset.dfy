/** Whom the scheduler's reset hits. It queries for processing messages whose last heartbeat is older than a
    horizon, and resets them later, one by one, without looking at lease or heartbeat again; and a consume
    does not write the heartbeat that the query looks at. */
module LeaseReset {
  import opened Collections
  import opened MessageTable
  import opened LeaseProtocol

  lemma {:induction false} RunsLast(s: Sys, ops: seq<Op>)
    requires Runs(s, ops) && ops != []
    ensures
      var before, op := ops[..|ops| - 1], ops[|ops| - 1];
      Runs(s, before) && Enabled(After(s, before), op) && After(s, ops) == Apply(After(s, before), op)
    decreases |ops|
  {
    hide Enabled, Apply;
    var before := ops[..|ops| - 1];
    if |ops| == 1 {
      assert before == [] && ops[1..] == [];
    } else {
      RunsLast(Apply(s, ops[0]), ops[1..]);
      assert ops[1..][..|ops| - 2] == before[1..];
    }
  }

  lemma {:induction false} RunsConcat(s: Sys, a: seq<Op>, b: seq<Op>)
    requires Runs(s, a) && Runs(After(s, a), b)
    ensures Runs(s, a + b) && After(s, a + b) == After(After(s, a), b)
    decreases |a|
  {
    hide Enabled, Apply;
    if a == [] {
      assert a + b == b;
    } else {
      RunsConcat(Apply(s, a[0]), a[1..], b);
      assert (a + b)[1..] == a[1..] + b;
    }
  }

  // ---- Who is alive: a trace and the log agree.

  /** This operation is a heartbeat or a consume of the message that takes effect. */
  predicate Acts(s: Sys, op: Op, id: nat) {
    || (op.ConsumeNow? && op.id == id && Free(s.rows, id))
    || (op.BeatWrite? && op.p in s.procs && s.procs[op.p].Beating? && s.procs[op.p].id == id
        && HeldBy(s.rows, id, s.procs[op.p].lease))
  }

  /** Somebody acted on the message during the run, at or after `since`, and has held it from then on. */
  ghost predicate HolderActed(s: Sys, ops: seq<Op>, id: nat, since: nat)
    decreases |ops|
  {
    Runs(s, ops) && ops != [] &&
    var before, op := ops[..|ops| - 1], ops[|ops| - 1];
    Held(After(s, ops), id) &&
    ((Runs(s, before) && Acts(After(s, before), op, id) && After(s, before).clock >= since) ||
     HolderActed(s, before, id, since))
  }

  predicate Touches(e: Event, id: nat, since: nat) {
    e.id == id && (e.Beat? || e.Consumed?) && e.at >= since
  }

  /** The log from position n on has a heartbeat or consume of the message, at or after `since`, with no ending
      after it. */
  ghost predicate ActiveSince(log: seq<Event>, n: nat, id: nat, since: nat) {
    exists k :: n <= k < |log| && Touches(log[k], id, since) && EndlessFrom(log, k, id)
  }

  /** The log before position n has a consume of the message, at or after `since`, with no ending after it. */
  ghost predicate ConsumedSince(log: seq<Event>, n: nat, id: nat, since: nat) {
    exists k :: 0 <= k < n && k < |log| && log[k].Consumed? && Touches(log[k], id, since) && EndlessFrom(log, k, id)
  }

  ghost predicate EndlessFrom(log: seq<Event>, k: nat, id: nat) {
    forall m | k < m < |log| :: !Ends(log[m], id)
  }

  lemma ActiveAppend(log: seq<Event>, e: Event, n: nat, id: nat, since: nat)
    requires n <= |log|
    ensures
      ActiveSince(log + [e], n, id, since) <==>
      Touches(e, id, since) || (!Ends(e, id) && ActiveSince(log, n, id, since))
  {
    var next := log + [e];
    if Touches(e, id, since) {
      assert next[|log|] == e && EndlessFrom(next, |log|, id);
    } else if !Ends(e, id) && ActiveSince(log, n, id, since) {
      var k :| n <= k < |log| && Touches(log[k], id, since) && EndlessFrom(log, k, id);
      assert next[k] == log[k] && EndlessFrom(next, k, id);
    }
    if ActiveSince(next, n, id, since) && !Touches(e, id, since) {
      var k :| n <= k < |next| && Touches(next[k], id, since) && EndlessFrom(next, k, id);
      assert next[|log|] == e && k < |log| && log[k] == next[k];
      forall m | k < m < |log| ensures !Ends(log[m], id) { assert next[m] == log[m]; }
      assert EndlessFrom(log, k, id);
    }
  }

  /** One step of a run: what it logs about the message, and what it leaves of its row. */
  lemma ActStep(s: Sys, op: Op, id: nat, since: nat)
    requires Inv(s) && Enabled(s, op) && Held(Apply(s, op), id)
    ensures
      var t, e := Apply(s, op), EventOf(s, op);
      && t.log == (if e.Some? then s.log + [e.value] else s.log)
      && (Acts(s, op, id) && s.clock >= since <==> e.Some? && Touches(e.value, id, since))
      && (e.Some? ==> !Ends(e.value, id))
      && (!Acts(s, op, id) ==>
            Held(s, id) && t.rows[id].lease == s.rows[id].lease && t.rows[id].beat == s.rows[id].beat)
  {
    hide AllRightful, TallyOf;
    LogStep(s, op);
    assert RowOK(s, id) && Balanced(s, id);
  }

  /** A message that nobody holds after a step was not touched by it, and was let go by it if it was held. */
  lemma LostStep(s: Sys, op: Op, id: nat, since: nat)
    requires Inv(s) && Enabled(s, op) && !Held(Apply(s, op), id)
    ensures
      var e := EventOf(s, op);
      && (e.Some? ==> !Touches(e.value, id, since))
      && (Held(s, id) ==> e.Some? && Ends(e.value, id))
  {
    hide AllRightful, TallyOf;
    assert RowOK(s, id) && Balanced(s, id);
  }

  /** Whoever holds a message at the end of a run acted in it at or after some time if and only if the log says
      so; and who did not act at all holds it as at the beginning. */
  lemma {:induction false} ActedIffLogged(s: Sys, ops: seq<Op>, id: nat, since: nat)
    requires Inv(s) && Runs(s, ops)
    ensures
      var t := After(s, ops);
      && Inv(t) && |s.log| <= |t.log|
      && (!Held(t, id) ==> !ActiveSince(t.log, |s.log|, id, since))
      && (Held(t, id) ==>
            && (HolderActed(s, ops, id, since) <==> ActiveSince(t.log, |s.log|, id, since))
            && (!HolderActed(s, ops, id, 0) ==>
                  Held(s, id) && t.rows[id].lease == s.rows[id].lease && t.rows[id].beat == s.rows[id].beat))
    decreases |ops|
  {
    hide Inv, Enabled, Apply, EventOf, Acts, Touches, Ends;
    if ops != [] {
      var before, op := ops[..|ops| - 1], ops[|ops| - 1];
      RunsLast(s, ops);
      var r := After(s, before);
      ActedIffLogged(s, before, id, since);
      InvStep(r, op);
      LogStep(r, op);
      if Held(After(s, ops), id) { ActStep(r, op, id, since); } else { LostStep(r, op, id, since); }
      if EventOf(r, op).Some? { ActiveAppend(r.log, EventOf(r, op).value, |s.log|, id, since); }
    }
  }

  // ---- Times in the log.

  predicate Stamped(e: Event) {
    e.Beat? || e.Consumed?
  }

  /** Logged times lie in the past, and a row's heartbeat is no older than any heartbeat logged for it. */
  ghost predicate Timed(s: Sys) {
    && (forall k | 0 <= k < |s.log| :: s.log[k].id in s.born)
    && (forall k | 0 <= k < |s.log| && Stamped(s.log[k]) :: s.log[k].at <= s.clock)
    && (forall k | 0 <= k < |s.log| && s.log[k].Beat? && s.log[k].id in s.rows ::
          s.log[k].at <= s.rows[s.log[k].id].beat)
  }

  /** A row's heartbeat is only ever set to the clock. */
  lemma BeatStep(s: Sys, op: Op, id: nat)
    requires Inv(s) && Enabled(s, op) && id in s.born && id in Apply(s, op).rows
    ensures id in s.rows
    ensures Apply(s, op).rows[id].beat == s.rows[id].beat || Apply(s, op).rows[id].beat == s.clock
  {
    assert Balanced(s, id);
  }

  /** What an operation logs carries the clock, names a known message, and is the heartbeat written if it is one. */
  lemma StampStep(s: Sys, op: Op)
    requires Inv(s) && Enabled(s, op)
    ensures
      var t, e := Apply(s, op), EventOf(s, op);
      && t.clock >= s.clock && (forall id | id in s.born :: id in t.born)
      && (e.Some? ==> e.value.id in t.born)
      && (e.Some? && Stamped(e.value) ==> e.value.at == s.clock)
      && (e.Some? && e.value.Beat? ==> e.value.id in t.rows && t.rows[e.value.id].beat == s.clock)
  {
    hide AllRightful, TallyOf;
    var e := EventOf(s, op);
    if e.Some? { assert RowOK(s, e.value.id); }
  }

  lemma TimedStep(s: Sys, op: Op)
    requires Inv(s) && Timed(s) && Enabled(s, op)
    ensures Timed(Apply(s, op))
  {
    hide Inv, Enabled, Apply, EventOf;
    LogStep(s, op);
    StampStep(s, op);
    var t := Apply(s, op);
    forall k | 0 <= k < |s.log| && s.log[k].Beat? && s.log[k].id in t.rows
      ensures s.log[k].at <= t.rows[s.log[k].id].beat
    {
      BeatStep(s, op, s.log[k].id);
    }
  }

  lemma {:induction false} TimedRuns(s: Sys, ops: seq<Op>)
    requires Inv(s) && Timed(s) && Runs(s, ops)
    ensures Inv(After(s, ops)) && Timed(After(s, ops))
    decreases |ops|
  {
    hide Inv, Timed, Enabled, Apply;
    if ops != [] {
      InvStep(s, ops[0]);
      TimedStep(s, ops[0]);
      TimedRuns(Apply(s, ops[0]), ops[1..]);
    }
  }

  /** The log only grows, by events no older than the clock was. */
  lemma {:induction false} LogGrows(s: Sys, ops: seq<Op>)
    requires Inv(s) && Runs(s, ops)
    ensures
      var t := After(s, ops);
      s.log <= t.log && forall k | |s.log| <= k < |t.log| && Stamped(t.log[k]) :: t.log[k].at >= s.clock
    decreases |ops|
  {
    hide Inv, Enabled, Apply, EventOf;
    if ops != [] {
      InvStep(s, ops[0]);
      LogStep(s, ops[0]);
      StampStep(s, ops[0]);
      LogGrows(Apply(s, ops[0]), ops[1..]);
    }
  }

  /** Splitting the log where the query was made: before it only consumes can be recent. */
  lemma SplitAtQuery(log: seq<Event>, n: nat, id: nat, horizon: nat)
    requires n <= |log|
    requires forall k | 0 <= k < n && log[k].Beat? && log[k].id == id :: log[k].at < horizon
    requires forall k | n <= k < |log| && Stamped(log[k]) :: log[k].at >= horizon
    ensures
      ActiveSince(log, 0, id, horizon) <==> ActiveSince(log, n, id, 0) || ConsumedSince(log, n, id, horizon)
  {
    hide EndlessFrom;
    if ActiveSince(log, 0, id, horizon) {
      var k :| 0 <= k < |log| && Touches(log[k], id, horizon) && EndlessFrom(log, k, id);
      if k >= n { assert Touches(log[k], id, 0); }
    }
    if ActiveSince(log, n, id, 0) {
      var k :| n <= k < |log| && Touches(log[k], id, 0) && EndlessFrom(log, k, id);
      assert Stamped(log[k]) && Touches(log[k], id, horizon);
    }
  }

  lemma AliveAtWrite(query: Sys, between: seq<Op>, id: nat, horizon: nat)
    requires Inv(query) && Timed(query) && Runs(query, between)
    requires id in query.rows && query.rows[id].beat < horizon <= query.clock
    ensures
      var log := After(query, between).log;
      ActiveSince(log, 0, id, horizon) <==>
      ActiveSince(log, |query.log|, id, 0) || ConsumedSince(log, |query.log|, id, horizon)
  {
    hide ActiveSince, ConsumedSince, Inv;
    LogGrows(query, between);
    var log := After(query, between).log;
    forall k | 0 <= k < |query.log| && log[k].Beat? && log[k].id == id ensures log[k].at < horizon {
      assert log[k] == query.log[k];
    }
    SplitAtQuery(log, |query.log|, id, horizon);
  }

  // ---- Whom a reset hits.

  lemma Prefixed(before: seq<Op>, query: Op, between: seq<Op>)
    requires Runs(Start(), before) && Enabled(After(Start(), before), query)
    requires Runs(Apply(After(Start(), before), query), between)
    ensures
      var all := before + ([query] + between);
      Runs(Start(), all) && After(Start(), all) == After(Apply(After(Start(), before), query), between)
  {
    hide Enabled, Apply;
    RunsFirst(After(Start(), before), query, between);
    RunsConcat(Start(), before, [query] + between);
  }

  /** The pass of process p goes on with part of the messages it was started on. */
  lemma {:induction false} PassGoesOn(s: Sys, ops: seq<Op>, p: nat, ids: seq<nat>)
    requires Runs(s, ops) && p in s.procs && s.procs[p] == Resetting(ids)
    requires forall k | 0 <= k < |ops| :: ops[k] != Abandon(p)
    ensures p in After(s, ops).procs && After(s, ops).procs[p].Resetting?
    ensures forall id | id in After(s, ops).procs[p].ids :: id in ids
    decreases |ops|
  {
    if ops != [] {
      var t := Apply(s, ops[0]);
      PassStep(s, ops[0], p);
      PassGoesOn(t, ops[1..], p, t.procs[p].ids);
    }
  }

  lemma PassStep(s: Sys, op: Op, p: nat)
    requires Enabled(s, op) && p in s.procs && s.procs[p].Resetting? && op != Abandon(p)
    ensures p in Apply(s, op).procs && Apply(s, op).procs[p].Resetting?
    ensures forall id | id in Apply(s, op).procs[p].ids :: id in s.procs[p].ids
  {
  }

  lemma QueryMade(before: seq<Op>, p: nat, ids: seq<nat>, horizon: nat)
    requires Runs(Start(), before) && Enabled(After(Start(), before), StaleRead(p, ids, horizon))
    ensures
      var query := Apply(After(Start(), before), StaleRead(p, ids, horizon));
      && Inv(query) && Timed(query) && p in query.procs && query.procs[p] == Resetting(ids)
      && horizon <= query.clock && forall id | id in ids :: Held(query, id) && query.rows[id].beat < horizon
  {
    hide Inv, Timed;
    Reachable([]);
    assert Timed(Start()) by { StartTimed(); }
    TimedRuns(Start(), before);
    InvStep(After(Start(), before), StaleRead(p, ids, horizon));
    TimedStep(After(Start(), before), StaleRead(p, ids, horizon));
  }

  lemma ResetFrom(query: Sys, p: nat, ids: seq<nat>, horizon: nat, between: seq<Op>)
    requires Inv(query) && Timed(query) && Runs(query, between)
    requires p in query.procs && query.procs[p] == Resetting(ids) && horizon <= query.clock
    requires forall id | id in ids :: Held(query, id) && query.rows[id].beat < horizon
    requires forall k | 0 <= k < |between| :: between[k] != Abandon(p)
    requires Enabled(After(query, between), ResetNext(p))
    ensures
      var write := After(query, between);
      var id := write.procs[p].ids[0];
      && id in ids && Held(query, id)
      && (EventOf(write, ResetNext(p)) == Some(Reset(id)) <==> Held(write, id))
      && (ActiveSince(write.log, 0, id, horizon) <==>
            ActiveSince(write.log, |query.log|, id, 0) || ConsumedSince(write.log, |query.log|, id, horizon))
      && (Held(write, id) ==>
            && Free(Apply(write, ResetNext(p)).rows, id)
            && (!ActiveSince(write.log, |query.log|, id, 0) ==>
                  write.rows[id].lease == query.rows[id].lease && write.rows[id].beat == query.rows[id].beat))
  {
    hide HolderActed, ActiveSince, ConsumedSince, Timed, Inv, Runs, After, EventOf, Apply, Free;
    PassGoesOn(query, between, p, ids);
    var id := After(query, between).procs[p].ids[0];
    assert id in ids;
    ActedIffLogged(query, between, id, 0);
    AliveAtWrite(query, between, id, horizon);
    ResetFrees(After(query, between), p);
  }

  /** Exactly whom a reset hits, over all runs. A message queried with some horizon is reset if and only if it is
      processing at the write. It is then taken from a holder that beat or consumed at or after the horizon if
      and only if, with no ending after, the log since the query has a heartbeat or consume of it, or the log
      before the query has a consume of it at or after the horizon. Otherwise the holder has given no sign of life
      since the horizon, and its lease and heartbeat are those that the query saw. */
  lemma ResetExactly(before: seq<Op>, p: nat, ids: seq<nat>, horizon: nat, between: seq<Op>)
    requires Runs(Start(), before) && Enabled(After(Start(), before), StaleRead(p, ids, horizon))
    requires Runs(Apply(After(Start(), before), StaleRead(p, ids, horizon)), between)
    requires forall k | 0 <= k < |between| :: between[k] != Abandon(p)
    requires Enabled(After(Apply(After(Start(), before), StaleRead(p, ids, horizon)), between), ResetNext(p))
    ensures
      var read := StaleRead(p, ids, horizon);
      var query := Apply(After(Start(), before), read);
      var write := After(query, between);
      var id := write.procs[p].ids[0];
      var alive := HolderActed(Start(), before + ([read] + between), id, horizon);
      && Held(query, id) && query.rows[id].beat < horizon
      && (EventOf(write, ResetNext(p)) == Some(Reset(id)) <==> Held(write, id))
      && (Held(write, id) ==>
            && Free(Apply(write, ResetNext(p)).rows, id)
            && (alive <==>
                  ActiveSince(write.log, |query.log|, id, 0) || ConsumedSince(write.log, |query.log|, id, horizon))
            && (!alive ==>
                  write.rows[id].lease == query.rows[id].lease && write.rows[id].beat == query.rows[id].beat))
  {
    hide HolderActed, ActiveSince, ConsumedSince, Timed, Inv, Runs, After, EventOf;
    var read := StaleRead(p, ids, horizon);
    QueryMade(before, p, ids, horizon);
    Prefixed(before, read, between);
    ResetFrom(Apply(After(Start(), before), read), p, ids, horizon, between);
    var id := After(Apply(After(Start(), before), read), between).procs[p].ids[0];
    Reachable([]);
    StartedAt();
    ActedIffLogged(Start(), before + ([read] + between), id, horizon);
  }

  lemma StartedAt()
    ensures Runs(Start(), []) && After(Start(), []) == Start()
  {
  }

  lemma ResetFrees(s: Sys, p: nat)
    requires Inv(s) && Enabled(s, ResetNext(p))
    ensures
      var id := s.procs[p].ids[0];
      && (EventOf(s, ResetNext(p)) == Some(Reset(id)) <==> Held(s, id))
      && (Held(s, id) ==> Free(Apply(s, ResetNext(p)).rows, id))
  {
    hide Balanced, ProcOK, AllRightful;
    assert RowOK(s, s.procs[p].ids[0]);
  }

  lemma StartTimed()
    ensures Timed(Start())
  {
  }

  // ---- The second way to be alive: a consume does not write the heartbeat.

  /** A message can wait for any time, since it was created, until the horizon is long past. */
  lemma WaitingIsReachable(content: string, data: Attr, now: nat)
    ensures
      var ops := [CreateRead(0, content, 0, data, None), CreateWrite(0), Advance(now)];
      && Runs(Start(), ops)
      && var s := After(Start(), ops);
      && Free(s.rows, 10000) && s.rows[10000].beat == 0 && s.clock == now && s.procs == map[]
  {
    var o0, o1, o2 := CreateRead(0, content, 0, data, None), CreateWrite(0), Advance(now);
    var s1 := Apply(Start(), o0);
    var s2 := Apply(s1, o1);
    RunsFirst(s2, o2, []);
    RunsFirst(s1, o1, [o2]);
    RunsFirst(Start(), o0, [o1, o2]);
  }

  /** In every such state, and in any other in which a free message has an old heartbeat, it can be consumed,
      queried and reset with nothing in between, although its holder acted at or after the horizon. */
  lemma FreshConsumerIsReset(s: Sys, id: nat, lease: string, p: nat, horizon: nat)
    requires Free(s.rows, id) && lease != "" && p !in s.procs
    requires s.rows[id].beat < horizon <= s.clock
    ensures
      var ops := [ConsumeNow(id, lease), StaleRead(p, [id], horizon)];
      && Runs(s, ops) && HolderActed(s, ops, id, horizon)
      && p in After(s, ops).procs && After(s, ops).procs[p] == Resetting([id])
      && Apply(After(s, ops), ResetNext(p)).log == s.log + [Consumed(id, lease, s.clock)] + [Reset(id)]
      && Free(Apply(After(s, ops), ResetNext(p)).rows, id)
  {
    var o0, o1 := ConsumeNow(id, lease), StaleRead(p, [id], horizon);
    var s1 := Apply(s, o0);
    var s2 := Apply(s1, o1);
    RunsFirst(s1, o1, []);
    RunsFirst(s, o0, [o1]);
    RunsFirst(s, o0, []);
    assert [o0, o1][..1] == [o0] && [o0][..0] == [];
    assert HeldBy(s1.rows, id, lease) && HeldBy(s2.rows, id, lease);
    assert HolderActed(s, [o0], id, horizon);
  }
}
