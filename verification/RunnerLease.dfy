/** The runners of pkg/runner: several goroutines under one lease each consume a message, work
    and release it, while other clients and the scheduler act on the same table. */
module RunnerLease {
  import opened Collections
  import opened MessageTable
  import opened LeaseProtocol

  /** A sync goroutine: idle, between its consume and its release, or inside its failed
      request, whose handler is process `p`. */
  datatype Phase = Idle | Working(id: nat) | Reporting(id: nat, p: nat)

  /** `lease` gives each goroutine the lease of its runner; goroutines of one runner share it. */
  datatype Fleet = Fleet(db: Sys, lease: map<nat, string>, phase: map<nat, Phase>)

  datatype Move =
    | Env(op: Op)                              // another client, the scheduler, or any heartbeat
    | Take(g: nat, id: nat)                    // consume, with any pending view; an empty content is dropped
    | FinishOK(g: nat)
    | GiveUp(g: nat)                           // cancel
    | FailBegin(g: nat, p: nat, error: string)
    | FailEnd(g: nat)

  predicate Reserved(f: Fleet, p: nat) { exists g | g in f.phase :: f.phase[g].Reporting? && f.phase[g].p == p }

  /** The environment never consumes under a runner's lease, and does not touch the
      processes of the runners' own requests, whose replies are not lost. */
  predicate Foreign(f: Fleet, op: Op) {
    && (op.ConsumeNow? ==> op.lease !in f.lease.Values)
    && (op.Abandon? || op.FailWrite? || op.BeatWrite? || op.CreateWrite? || op.ResetNext? || op.DeleteNext? ==>
          !Reserved(f, op.p))
  }

  predicate Can(f: Fleet, m: Move) {
    match m
    case Env(op) => Enabled(f.db, op) && Foreign(f, op)
    case Take(g, _) => g in f.phase && g in f.lease && f.lease[g] != "" && f.phase[g].Idle?
    case FinishOK(g) => g in f.phase && g in f.lease && f.lease[g] != "" && f.phase[g].Working?
    case GiveUp(g) => g in f.phase && g in f.lease && f.lease[g] != "" && f.phase[g].Working?
    case FailBegin(g, p, _) =>
      g in f.phase && g in f.lease && f.lease[g] != "" && f.phase[g].Working? && p !in f.db.procs
    case FailEnd(g) => g in f.phase && g in f.lease && f.phase[g].Reporting? && Enabled(f.db, FailWrite(f.phase[g].p))
  }

  function Go(f: Fleet, m: Move): Fleet
    requires Can(f, m)
  {
    match m
    case Env(op) => f.(db := Apply(f.db, op))
    case Take(g, id) =>
      f.(db := Apply(f.db, ConsumeNow(id, f.lease[g])),
         phase := if Free(f.db.rows, id) && f.db.rows[id].content != "" then f.phase[g := Working(id)] else f.phase)
    case FinishOK(g) => f.(db := Apply(f.db, CompleteNow(f.phase[g].id, f.lease[g])), phase := f.phase[g := Idle])
    case GiveUp(g) => f.(db := Apply(f.db, CancelNow(f.phase[g].id, f.lease[g])), phase := f.phase[g := Idle])
    case FailBegin(g, p, error) =>
      var id := f.phase[g].id;
      if Live(f.db.rows, id) then
        f.(db := Apply(f.db, FailRead(p, id, f.lease[g], error)), phase := f.phase[g := Reporting(id, p)])
      else f.(phase := f.phase[g := Idle])
    case FailEnd(g) => f.(db := Apply(f.db, FailWrite(f.phase[g].p)), phase := f.phase[g := Idle])
  }

  ghost predicate Goes(f: Fleet, moves: seq<Move>)
    decreases |moves|
  {
    moves == [] || (Can(f, moves[0]) && Goes(Go(f, moves[0]), moves[1..]))
  }

  ghost function Then(f: Fleet, moves: seq<Move>): Fleet
    requires Goes(f, moves)
    decreases |moves|
  {
    if moves == [] then f else Then(Go(f, moves[0]), moves[1..])
  }

  predicate WorksOn(f: Fleet, g: nat, id: nat, lease: string) {
    && g in f.phase && g in f.lease && f.lease[g] == lease
    && (f.phase[g].Working? || f.phase[g].Reporting?) && f.phase[g].id == id
  }

  ghost predicate Covered(f: Fleet, id: nat) {
    id in f.db.rows && f.db.rows[id].lease in f.lease.Values && f.db.rows[id].content != "" ==>
      exists g :: WorksOn(f, g, id, f.db.rows[id].lease)
  }

  /** A request in flight is still the one its goroutine made. */
  predicate Filed(f: Fleet, g: nat) {
    g in f.phase && f.phase[g].Reporting? ==>
      && g in f.lease && f.phase[g].p in f.db.procs
      && f.db.procs[f.phase[g].p].Failing?
      && f.db.procs[f.phase[g].p].id == f.phase[g].id && f.db.procs[f.phase[g].p].lease == f.lease[g]
  }

  ghost predicate FleetInv(f: Fleet) {
    && Inv(f.db) && "" !in f.lease.Values && f.phase.Keys <= f.lease.Keys
    && (forall id: nat :: Covered(f, id))
    && (forall g: nat :: Filed(f, g))
    && (forall g, h | g in f.phase && h in f.phase && f.phase[g].Reporting? && f.phase[h].Reporting? ::
          f.phase[g].p == f.phase[h].p ==> g == h)
  }

  /** The statement a move runs on the table. */
  function OpOf(f: Fleet, m: Move): Option<Op>
    requires Can(f, m)
  {
    match m
    case Env(op) => Some(op)
    case Take(g, id) => Some(ConsumeNow(id, f.lease[g]))
    case FinishOK(g) => Some(CompleteNow(f.phase[g].id, f.lease[g]))
    case GiveUp(g) => Some(CancelNow(f.phase[g].id, f.lease[g]))
    case FailBegin(g, p, error) =>
      if Live(f.db.rows, f.phase[g].id) then Some(FailRead(p, f.phase[g].id, f.lease[g], error)) else None
    case FailEnd(g) => Some(FailWrite(f.phase[g].p))
  }

  /** A statement gives a row a lease only by consuming it. */
  lemma LeaseFrom(s: Sys, op: Op, id: nat)
    requires Enabled(s, op) && id in Apply(s, op).rows
    ensures var l := Apply(s, op).rows[id].lease;
      || l == ""
      || (id in s.rows && s.rows[id].lease == l)
      || (op == ConsumeNow(id, l) && Free(s.rows, id))
  {
  }

  lemma ContentStays(s: Sys, op: Op, id: nat)
    requires Inv(s) && Enabled(s, op) && id in s.rows && id in Apply(s, op).rows
    ensures Apply(s, op).rows[id].content == s.rows[id].content
  {
    assert RowOK(s, id) && Balanced(s, id);
  }

  /** After a complete, failed or cancel request under a lease the row does not carry that
      lease, whether or not the update matched it. */
  lemma ReleaseDrops(s: Sys, op: Op, id: nat, lease: string)
    requires Inv(s) && Enabled(s, op) && lease != ""
    requires op == CompleteNow(id, lease) || op == CancelNow(id, lease)
      || (op.FailWrite? && s.procs[op.p].id == id && s.procs[op.p].lease == lease)
    ensures id in Apply(s, op).rows ==> Apply(s, op).rows[id].lease != lease
  {
    assert RowOK(s, id);
  }

  lemma CoveredStep(f: Fleet, m: Move, id: nat)
    requires FleetInv(f) && Can(f, m)
    ensures Covered(Go(f, m), id)
  {
    hide Inv, Apply, RowOK, Enabled;
    var t, op := Go(f, m), OpOf(f, m);
    if id in t.db.rows && t.db.rows[id].lease in t.lease.Values && t.db.rows[id].content != "" {
      var l := t.db.rows[id].lease;
      if op.Some? {
        LeaseFrom(f.db, op.value, id);
        if id in f.db.rows { ContentStays(f.db, op.value, id); }
      }
      if m.Take? && op == Some(ConsumeNow(id, l)) && Free(f.db.rows, id) {
        assert WorksOn(t, m.g, id, l);
      } else {
        assert id in f.db.rows && f.db.rows[id].lease == l;
        assert Covered(f, id);
        var g :| WorksOn(f, g, id, l);
        StillWorks(f, m, g, id, l);
      }
    }
  }

  /** The goroutine that covers a row which keeps its lease is still at it. */
  lemma StillWorks(f: Fleet, m: Move, g: nat, id: nat, lease: string)
    requires FleetInv(f) && Can(f, m) && WorksOn(f, g, id, lease)
    requires id in Go(f, m).db.rows && Go(f, m).db.rows[id].lease == lease
    ensures WorksOn(Go(f, m), g, id, lease)
  {
    hide Inv, Apply, RowOK, Enabled;
    assert lease != "";
    match m
    case FinishOK(h) => if h == g { ReleaseDrops(f.db, CompleteNow(id, lease), id, lease); }
    case GiveUp(h) => if h == g { ReleaseDrops(f.db, CancelNow(id, lease), id, lease); }
    case FailEnd(h) =>
      if h == g {
        assert Filed(f, g);
        ReleaseDrops(f.db, FailWrite(f.phase[g].p), id, lease);
      }
    case FailBegin(h, p, error) => if h == g && !Live(f.db.rows, id) { HeldIsLive(f.db, id); }
    case _ =>
  }

  lemma HeldIsLive(s: Sys, id: nat)
    requires Inv(s) && id in s.rows && s.rows[id].lease != ""
    ensures Live(s.rows, id)
  {
    assert RowOK(s, id);
  }

  lemma FiledStep(f: Fleet, m: Move, g: nat)
    requires FleetInv(f) && Can(f, m)
    ensures Filed(Go(f, m), g)
  {
    hide Inv, RowOK;
    assert Filed(f, g);
    if g in f.phase && f.phase[g].Reporting? { assert Reserved(f, f.phase[g].p); }
  }

  lemma GoKeeps(f: Fleet, m: Move)
    requires FleetInv(f) && Can(f, m)
    ensures FleetInv(Go(f, m))
  {
    var t, op := Go(f, m), OpOf(f, m);
    if op.Some? { InvStep(f.db, op.value); }
    hide Inv, Apply, Covered;
    forall id: nat ensures Covered(t, id) { CoveredStep(f, m, id); }
    forall g: nat ensures Filed(t, g) { FiledStep(f, m, g); }
    if m.FailBegin? {
      forall h | h in f.phase && f.phase[h].Reporting? ensures f.phase[h].p != m.p { assert Filed(f, h); }
    }
  }

  lemma {:induction false} MovesKeep(f: Fleet, moves: seq<Move>)
    requires FleetInv(f) && Goes(f, moves)
    ensures FleetInv(Then(f, moves))
    decreases |moves|
  {
    hide FleetInv, Can, Go;
    if moves != [] {
      GoKeeps(f, moves[0]);
      MovesKeep(Go(f, moves[0]), moves[1..]);
    }
  }

  /** Runners with non-empty leases and idle goroutines on an empty table. */
  predicate Fresh(f: Fleet) {
    && f.db == LeaseProtocol.Start() && "" !in f.lease.Values && f.phase.Keys <= f.lease.Keys
    && forall g | g in f.phase :: f.phase[g].Idle?
  }

  /** No leaked lease: in every run, a row with a content that carries a runner's lease has a
      goroutine of that runner between its consume and its release of that very message. */
  lemma NoLeakedLease(f: Fleet, moves: seq<Move>, id: nat)
    requires Fresh(f) && Goes(f, moves)
    ensures var t := Then(f, moves);
      id in t.db.rows && t.db.rows[id].lease in t.lease.Values && t.db.rows[id].content != "" ==>
        exists g :: WorksOn(t, g, id, t.db.rows[id].lease)
  {
    Reachable([]);
    MovesKeep(f, moves);
    assert Covered(Then(f, moves), id);
  }

  /** The condition is exact: of two moves that consume a message alike, only the one that finds
      a content is followed by work, and the other leaves the row leased to nobody. */
  lemma EmptyContentLeaks(f: Fleet, g: nat, id: nat)
    requires FleetInv(f) && Can(f, Take(g, id)) && Free(f.db.rows, id)
    requires forall h :: !WorksOn(f, h, id, f.lease[g])
    ensures var t := Go(f, Take(g, id));
      && id in t.db.rows && t.db.rows[id].lease == f.lease[g]
      && ((exists h :: WorksOn(t, h, id, f.lease[g])) <==> f.db.rows[id].content != "")
  {
    hide Inv;
    var t := Go(f, Take(g, id));
    if f.db.rows[id].content != "" {
      assert WorksOn(t, g, id, f.lease[g]);
    } else {
      forall h ensures !WorksOn(t, h, id, f.lease[g]) { assert !WorksOn(f, h, id, f.lease[g]); }
    }
  }

  /** So a runner all of whose goroutines are idle holds no message but empty ones. */
  lemma IdleHoldsNothing(f: Fleet, moves: seq<Move>, lease: string, id: nat)
    requires Fresh(f) && Goes(f, moves) && lease in f.lease.Values
    requires var t := Then(f, moves); forall g | g in t.phase && g in t.lease && t.lease[g] == lease :: t.phase[g].Idle?
    ensures var t := Then(f, moves); id in t.db.rows && t.db.rows[id].content != "" ==> t.db.rows[id].lease != lease
  {
    NoLeakedLease(f, moves, id);
    LeasesStay(f, moves);
  }

  lemma {:induction false} LeasesStay(f: Fleet, moves: seq<Move>)
    requires Goes(f, moves)
    ensures Then(f, moves).lease == f.lease
    decreases |moves|
  {
    if moves != [] { LeasesStay(Go(f, moves[0]), moves[1..]); }
  }
}
