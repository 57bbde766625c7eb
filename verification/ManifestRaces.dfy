/** Puts, relinks, blob uploads and reads of manifests interleaved at every access to the store. */
module ManifestRaces {
  import opened Collections
  import opened Strings
  import opened ManifestStore

  /** One call, by what it does next. */
  datatype Proc =
    | PutTag(host: string, image: string, ref: string, content: string)
    | PutRev(host: string, image: string, ref: string, content: string)
    | PutData(host: string, image: string, ref: string, content: string)
    | PutDone(host: string, image: string, ref: string, content: string)
    | PutRejected(host: string, image: string, ref: string, content: string)
    | BlobPut(blob: string, content: string)
    | BlobDone
    | RelinkStat(host: string, image: string, tag: string, blob: string)
    | RelinkTag(host: string, image: string, tag: string, blob: string)
    | RelinkRev(host: string, image: string, tag: string, blob: string)
    | RelinkDone
    | GetLink(host: string, image: string, ref: string)
    | GetData(host: string, image: string, ref: string, digest: string)
    | GetClean(host: string, image: string, ref: string, digest: string)
    | GetUnlink(host: string, image: string, ref: string, digest: string)
    | Got(host: string, image: string, ref: string, found: Option<Manifest>)
    | Stopped

  datatype Sys = Sys(store: Store, procs: map<nat, Proc>)

  datatype Op = Begin(pid: nat, proc: Proc) | Step(pid: nat) | Stop(pid: nat)

  /** A call may start with any arguments. */
  predicate Start(p: Proc) {
    p.PutTag? || p.GetLink? || p.BlobPut? || p.RelinkStat?
  }

  predicate Finished(p: Proc) {
    p.PutDone? || p.PutRejected? || p.BlobDone? || p.RelinkDone? || p.Got? || p.Stopped?
  }

  /** One access to the store. A call that needs the path of a blob with too short a name panics and stops. */
  function StepProc(w: World, store: Store, p: Proc): (Store, Proc) {
    match p
    case PutTag(host, image, ref, content) =>
      if !Acceptable(w, ref, content) then (store, PutRejected(host, image, ref, content))
      else if HasPrefix(ref, DIGEST_PREFIX) then (store, PutRev(host, image, ref, content))
      else (store[Tag(host, image, ref) := Digest(w, content)], PutRev(host, image, ref, content))
    case PutRev(host, image, ref, content) =>
      var digest := Digest(w, content);
      (store[Rev(host, image, CleanDigest(digest)) := digest], PutData(host, image, ref, content))
    case PutData(host, image, ref, content) =>
      (store[BlobKey(Digest(w, content)) := content], PutDone(host, image, ref, content))
    case BlobPut(blob, content) =>
      if BlobPath(blob).None? then (store, Stopped)
      else (if w.hash(content) == CleanDigest(blob) then store[BlobKey(blob) := content] else store, BlobDone)
    case RelinkStat(host, image, tag, blob) =>
      var digest := EnsureDigestPrefix(blob);
      if BlobPath(digest).None? then (store, Stopped)
      else (store, if BlobKey(digest) in store then RelinkTag(host, image, tag, blob) else RelinkDone)
    case RelinkTag(host, image, tag, blob) =>
      (store[Tag(host, image, tag) := EnsureDigestPrefix(blob)], RelinkRev(host, image, tag, blob))
    case RelinkRev(host, image, tag, blob) =>
      var digest := EnsureDigestPrefix(blob);
      (store[Rev(host, image, CleanDigest(digest)) := digest], RelinkDone)
    case GetLink(host, image, ref) =>
      var link := LinkKey(host, image, ref);
      (store, if link in store then GetData(host, image, ref, store[link]) else Got(host, image, ref, None))
    case GetData(host, image, ref, digest) =>
      if BlobKey(digest) !in store then (store, Got(host, image, ref, None))
      else
        var content := store[BlobKey(digest)];
        (match w.mediaType(content)
         case None => (store, GetClean(host, image, ref, digest))
         case Some(mediaType) => (store, Got(host, image, ref, Some(Manifest(content, digest, mediaType)))))
    case GetClean(host, image, ref, digest) =>
      (store - {BlobKey(digest)}, GetUnlink(host, image, ref, digest))
    case GetUnlink(host, image, ref, digest) =>
      (store - {LinkKey(host, image, ref)}, Got(host, image, ref, None))
    case _ => (store, p)
  }

  /** An operation that is not possible changes nothing; a call may be cut short between any two accesses. */
  function Apply(w: World, s: Sys, op: Op): Sys {
    match op
    case Begin(pid, p) => if pid !in s.procs && Start(p) then s.(procs := s.procs[pid := p]) else s
    case Step(pid) =>
      if pid !in s.procs then s
      else
        var (store, p) := StepProc(w, s.store, s.procs[pid]);
        Sys(store, s.procs[pid := p])
    case Stop(pid) =>
      if pid in s.procs && !Finished(s.procs[pid]) then s.(procs := s.procs[pid := Stopped]) else s
  }

  function Runs(w: World, s: Sys, ops: seq<Op>): Sys
    decreases |ops|
  {
    if ops == [] then s else Apply(w, Runs(w, s, ops[..|ops| - 1]), ops[|ops| - 1])
  }

  function Empty(): Sys { Sys(map[], map[]) }

  /** The digest of a content that is no manifest. */
  ghost predicate Junk(w: World, digest: string) {
    exists c :: Digest(w, c) == digest && w.mediaType(c).None?
  }

  /** What a call knows between its steps. */
  ghost predicate Informed(w: World, store: Store, p: Proc) {
    match p
    case PutRev(_, _, ref, content) => Acceptable(w, ref, content)
    case PutData(host, image, ref, content) => Acceptable(w, ref, content) && Rev(host, image, w.hash(content)) in store
    case PutDone(host, image, ref, content) =>
      Acceptable(w, ref, content) && Rev(host, image, w.hash(content)) in store && Blob(w.hash(content)) in store
    case PutRejected(_, _, ref, content) => !Acceptable(w, ref, content)
    case RelinkTag(_, _, _, blob) => IsDigest(w, EnsureDigestPrefix(blob))
    case RelinkRev(_, _, _, blob) => IsDigest(w, EnsureDigestPrefix(blob))
    case GetData(host, image, ref, digest) => IsDigest(w, digest) && Fits(ref, digest)
    case GetClean(host, image, ref, digest) => Junk(w, digest) && Fits(ref, digest)
    case GetUnlink(host, image, ref, digest) => Junk(w, digest) && Fits(ref, digest)
    case Got(_, _, ref, Some(m)) =>
      m.digest == Digest(w, m.content) && w.mediaType(m.content) == Some(m.mediaType) && Fits(ref, m.digest)
    case _ => true
  }

  /** A digest reference leads to the digest it names. */
  predicate Fits(ref: string, digest: string) {
    HasPrefix(ref, DIGEST_PREFIX) ==> digest == DIGEST_PREFIX + CleanDigest(ref[|DIGEST_PREFIX|..])
  }

  ghost predicate Inv(w: World, s: Sys) {
    && Consistent(w, s.store)
    && forall pid | pid in s.procs :: Informed(w, s.store, s.procs[pid])
  }

  lemma HashUnique(w: World, a: string, b: string)
    requires Sound(w) && w.hash(a) == w.hash(b)
    ensures a == b
  {
  }

  lemma JunkIsNoManifest(w: World, digest: string, content: string)
    requires Sound(w) && Junk(w, digest) && w.mediaType(content).Some?
    ensures CleanDigest(digest) != w.hash(content)
    ensures IsDigest(w, digest) && digest == DIGEST_PREFIX + CleanDigest(digest)
  {
    var c :| Digest(w, c) == digest && w.mediaType(c).None?;
    DigestClean(w, c);
    if CleanDigest(digest) == w.hash(content) { HashUnique(w, c, content); }
  }

  lemma StepConsistent(w: World, store: Store, p: Proc)
    requires Sound(w) && Consistent(w, store) && Informed(w, store, p)
    ensures Consistent(w, StepProc(w, store, p).0)
  {
    if p.PutTag? || p.PutRev? || p.PutData? { DigestClean(w, p.content); }
  }

  /** A step of one call tells it what it needs to know. */
  lemma StepInforms(w: World, store: Store, p: Proc)
    requires Sound(w) && Consistent(w, store) && Informed(w, store, p)
    ensures Informed(w, StepProc(w, store, p).0, StepProc(w, store, p).1)
  {
    if p.GetLink? && LinkKey(p.host, p.image, p.ref) in store {
      LinkedDigest(w, store, LinkKey(p.host, p.image, p.ref));
    }
  }

  /** A step of one call tells nothing untrue to another: only junk is ever deleted. */
  lemma StepKeeps(w: World, store: Store, p: Proc, content: string)
    requires Sound(w) && Consistent(w, store) && Informed(w, store, p) && w.mediaType(content).Some?
    ensures
      var next, h := StepProc(w, store, p).0, w.hash(content);
      && (Blob(h) in store ==> Blob(h) in next)
      && forall host, image | Rev(host, image, h) in store :: Rev(host, image, h) in next
  {
    if p.GetClean? || p.GetUnlink? { JunkIsNoManifest(w, p.digest, content); }
  }

  lemma StepKeepsInformed(w: World, store: Store, p: Proc, q: Proc)
    requires Sound(w) && Consistent(w, store) && Informed(w, store, p) && Informed(w, store, q)
    ensures Informed(w, StepProc(w, store, p).0, q)
  {
    hide StepProc;
    if q.PutData? || q.PutDone? { StepKeeps(w, store, p, q.content); }
  }

  lemma InvApply(w: World, s: Sys, op: Op)
    requires Sound(w) && Inv(w, s)
    ensures Inv(w, Apply(w, s, op))
  {
    hide Consistent, StepProc, Sound;
    if op.Step? && op.pid in s.procs {
      hide Informed;
      var p := s.procs[op.pid];
      StepConsistent(w, s.store, p);
      StepInforms(w, s.store, p);
      forall pid | pid in s.procs ensures Informed(w, StepProc(w, s.store, p).0, s.procs[pid]) {
        StepKeepsInformed(w, s.store, p, s.procs[pid]);
      }
    }
  }

  lemma {:induction false} InvRuns(w: World, s: Sys, ops: seq<Op>)
    requires Sound(w) && Inv(w, s)
    ensures Inv(w, Runs(w, s, ops))
    decreases |ops|
  {
    if ops != [] {
      InvRuns(w, s, ops[..|ops| - 1]);
      InvApply(w, Runs(w, s, ops[..|ops| - 1]), ops[|ops| - 1]);
    }
  }

  lemma {:induction false} RunsConcat(w: World, s: Sys, a: seq<Op>, b: seq<Op>)
    ensures Runs(w, s, a + b) == Runs(w, Runs(w, s, a), b)
    decreases |b|
  {
    if b == [] {
      assert a + b == a;
    } else {
      RunsConcat(w, s, a, b[..|b| - 1]);
      assert (a + b)[..|a + b| - 1] == a + b[..|b| - 1];
    }
  }

  /** Whatever else is going on, a read that succeeds returns the content its digest names, and a
      read by digest returns exactly the digest asked for unless that was prefixed twice. */
  lemma GetIsAuthentic(w: World, ops: seq<Op>, pid: nat)
    requires Sound(w)
    requires pid in Runs(w, Empty(), ops).procs && Runs(w, Empty(), ops).procs[pid].Got?
    requires Runs(w, Empty(), ops).procs[pid].found.Some?
    ensures
      var p := Runs(w, Empty(), ops).procs[pid];
      var m := p.found.value;
      && m.digest == Digest(w, m.content)
      && w.mediaType(m.content) == Some(m.mediaType)
      && (HasPrefix(p.ref, DIGEST_PREFIX) ==>
            (m.digest == p.ref <==> !HasPrefix(p.ref[|DIGEST_PREFIX|..], DIGEST_PREFIX)))
  {
    hide Consistent;
    assert Consistent(w, map[]) by { EmptyIsConsistent(w); }
    InvRuns(w, Empty(), ops);
    var p := Runs(w, Empty(), ops).procs[pid];
    assert Informed(w, Runs(w, Empty(), ops).store, p);
    if HasPrefix(p.ref, DIGEST_PREFIX) {
      assert p.ref == DIGEST_PREFIX + p.ref[|DIGEST_PREFIX|..];
    }
  }

  lemma EmptyIsConsistent(w: World)
    ensures Consistent(w, map[])
  {
  }

  /** A put that has finished stays readable by its digest through everything that follows. */
  lemma PutStaysReadable(w: World, ops: seq<Op>, pid: nat)
    requires Sound(w)
    requires pid in Runs(w, Empty(), ops).procs && Runs(w, Empty(), ops).procs[pid].PutDone?
    ensures
      var s := Runs(w, Empty(), ops);
      var p := s.procs[pid];
      && w.mediaType(p.content).Some?
      && Lookup(w, s.store, p.host, p.image, Digest(w, p.content))
         == Some(Manifest(p.content, Digest(w, p.content), w.mediaType(p.content).value))
  {
    EmptyIsConsistent(w);
    InvRuns(w, Empty(), ops);
    var s := Runs(w, Empty(), ops);
    assert Informed(w, s.store, s.procs[pid]);
    ReadsBack(w, s.store, s.procs[pid].host, s.procs[pid].image, s.procs[pid].content);
  }

  lemma ReadsBack(w: World, store: Store, host: string, image: string, content: string)
    requires Sound(w) && Consistent(w, store) && w.mediaType(content).Some?
    requires Rev(host, image, w.hash(content)) in store && Blob(w.hash(content)) in store
    ensures
      var d := Digest(w, content);
      Lookup(w, store, host, image, d) == Some(Manifest(content, d, w.mediaType(content).value))
  {
    var d := Digest(w, content);
    DigestClean(w, content);
    assert d[|DIGEST_PREFIX|..] == w.hash(content);
    HashUnique(w, store[Blob(w.hash(content))], content);
  }

  predicate Mentions(ops: seq<Op>, pid: nat) {
    exists k | 0 <= k < |ops| :: ops[k].pid == pid
  }

  lemma {:induction false} OthersLeave(w: World, s: Sys, ops: seq<Op>, pid: nat)
    requires pid in s.procs && (Finished(s.procs[pid]) || !Mentions(ops, pid))
    ensures pid in Runs(w, s, ops).procs && Runs(w, s, ops).procs[pid] == s.procs[pid]
    decreases |ops|
  {
    hide StepProc;
    if ops != [] {
      var before := ops[..|ops| - 1];
      assert Mentions(before, pid) ==> Mentions(ops, pid) by {
        if Mentions(before, pid) {
          var k :| 0 <= k < |before| && before[k].pid == pid;
          assert ops[k].pid == pid;
        }
      }
      OthersLeave(w, s, before, pid);
      FinishedStays(w, Runs(w, s, before).store, s.procs[pid]);
      assert ops[|ops| - 1].pid == pid ==> Mentions(ops, pid);
    }
  }

  lemma FinishedStays(w: World, store: Store, p: Proc)
    ensures Finished(p) ==> StepProc(w, store, p) == (store, p)
  {
  }

  /** A read by digest begun after the put has finished succeeds, whatever happens between its two accesses. */
  lemma ReadAfterPut(w: World, s: Sys, ops: seq<Op>, put: nat, pid: nat)
    requires Sound(w) && Inv(w, s)
    requires put in s.procs && s.procs[put].PutDone?
    requires pid in s.procs && !Mentions(ops, pid)
    requires
      var p := s.procs[put];
      s.procs[pid] == GetLink(p.host, p.image, Digest(w, p.content))
    ensures
      var p, d := s.procs[put], Digest(w, s.procs[put].content);
      var end := Apply(w, Runs(w, Apply(w, s, Step(pid)), ops), Step(pid));
      && w.mediaType(p.content).Some? && pid in end.procs
      && end.procs[pid] == Got(p.host, p.image, d, Some(Manifest(p.content, d, w.mediaType(p.content).value)))
  {
    hide Consistent, Mentions, Runs;
    var p := s.procs[put];
    var d := Digest(w, p.content);
    assert Informed(w, s.store, p);
    ReadsBack(w, s.store, p.host, p.image, p.content);
    var s1 := Apply(w, s, Step(pid));
    InvApply(w, s, Step(pid));
    assert s1.procs[pid] == GetData(p.host, p.image, d, d);
    OthersLeave(w, s1, ops, pid);
    OthersLeave(w, s1, ops, put);
    InvRuns(w, s1, ops);
    var s2 := Runs(w, s1, ops);
    assert Informed(w, s2.store, s2.procs[put]);
    ReadsBack(w, s2.store, p.host, p.image, p.content);
  }

  // ---- Tags.

  /** This step links the tag. */
  predicate Links(w: World, s: Sys, op: Op, link: Key) {
    op.Step? && op.pid in s.procs &&
    match s.procs[op.pid]
    case PutTag(host, image, ref, content) => LinkKey(host, image, ref) == link && Acceptable(w, ref, content)
    case RelinkTag(host, image, tag, _) => Tag(host, image, tag) == link
    case _ => false
  }

  /** No step of the run links the tag. */
  predicate Quiet(w: World, s: Sys, ops: seq<Op>, link: Key)
    decreases |ops|
  {
    ops == [] ||
    var before := ops[..|ops| - 1];
    Quiet(w, s, before, link) && !Links(w, Runs(w, s, before), ops[|ops| - 1], link)
  }

  /** A read of the tag that is under way with a digest that names no manifest. */
  ghost predicate Stale(w: World, p: Proc, link: Key) {
    (p.GetData? || p.GetClean? || p.GetUnlink?) && LinkKey(p.host, p.image, p.ref) == link && Junk(w, p.digest)
  }

  ghost predicate AnyStale(w: World, s: Sys, link: Key) {
    exists pid | pid in s.procs :: Stale(w, s.procs[pid], link)
  }

  /** The tag names a manifest and no read under way is going to drop it. */
  ghost predicate Held(w: World, s: Sys, link: Key, content: string) {
    && link.Tag? && link in s.store && s.store[link] == Digest(w, content)
    && !AnyStale(w, s, link)
  }

  lemma HeldApply(w: World, s: Sys, op: Op, link: Key, content: string)
    requires Sound(w) && Inv(w, s) && w.mediaType(content).Some?
    requires Held(w, s, link, content) && !Links(w, s, op, link)
    ensures Held(w, Apply(w, s, op), link, content)
  {
    hide Consistent;
    DigestClean(w, content);
    assert !Junk(w, Digest(w, content)) by {
      if Junk(w, Digest(w, content)) { JunkIsNoManifest(w, Digest(w, content), content); }
    }
    var next := Apply(w, s, op);
    if op.Step? && op.pid in s.procs {
      var p := s.procs[op.pid];
      assert Informed(w, s.store, p);
      HeldStep(w, s.store, p, link, Digest(w, content));
    }
    if AnyStale(w, next, link) {
      var pid :| pid in next.procs && Stale(w, next.procs[pid], link);
      assert pid in s.procs ==> !Stale(w, s.procs[pid], link);
    }
  }

  lemma HeldStep(w: World, store: Store, p: Proc, link: Key, digest: string)
    requires Sound(w) && Informed(w, store, p) && !Junk(w, digest)
    requires link.Tag? && link in store && store[link] == digest && !Stale(w, p, link)
    requires p.PutTag? && LinkKey(p.host, p.image, p.ref) == link ==> !Acceptable(w, p.ref, p.content)
    requires p.RelinkTag? ==> Tag(p.host, p.image, p.tag) != link
    ensures
      var (next, q) := StepProc(w, store, p);
      link in next && next[link] == digest && !Stale(w, q, link)
  {
    hide Sound;
  }

  lemma {:induction false} HeldRuns(w: World, s: Sys, ops: seq<Op>, link: Key, content: string)
    requires Sound(w) && Inv(w, s) && w.mediaType(content).Some?
    requires Held(w, s, link, content) && Quiet(w, s, ops, link)
    ensures Held(w, Runs(w, s, ops), link, content)
    decreases |ops|
  {
    hide Sound, Inv, Held, Links, Apply;
    if ops != [] {
      var before := ops[..|ops| - 1];
      HeldRuns(w, s, before, link, content);
      InvRuns(w, s, before);
      HeldApply(w, Runs(w, s, before), ops[|ops| - 1], link, content);
    }
  }

  ghost predicate Reads(w: World, s: Sys, link: Key, content: string)
    requires link.Tag? && w.mediaType(content).Some?
  {
    Lookup(w, s.store, link.host, link.image, link.tag)
    == Some(Manifest(content, Digest(w, content), w.mediaType(content).value))
  }

  lemma HeldReads(w: World, s: Sys, link: Key, content: string)
    requires Sound(w) && Inv(w, s) && w.mediaType(content).Some?
    requires Held(w, s, link, content) && !HasPrefix(link.tag, DIGEST_PREFIX) && Blob(w.hash(content)) in s.store
    ensures Reads(w, s, link, content)
  {
    DigestClean(w, content);
    HashUnique(w, s.store[Blob(w.hash(content))], content);
  }

  /** Blobs of manifests are never deleted. */
  lemma {:induction false} BlobStays(w: World, s: Sys, ops: seq<Op>, content: string)
    requires Sound(w) && Inv(w, s) && w.mediaType(content).Some? && Blob(w.hash(content)) in s.store
    ensures Blob(w.hash(content)) in Runs(w, s, ops).store
    decreases |ops|
  {
    hide Sound, Consistent, StepProc, Informed;
    if ops != [] {
      var before := ops[..|ops| - 1];
      BlobStays(w, s, before, content);
      InvRuns(w, s, before);
      var t, op := Runs(w, s, before), ops[|ops| - 1];
      if op.Step? && op.pid in t.procs { StepKeeps(w, t.store, t.procs[op.pid], content); }
    }
  }

  lemma {:induction false} FreshPid(used: set<nat>) returns (pid: nat)
    ensures forall k | k in used :: k < pid
  {
    if used == {} {
      pid := 0;
    } else {
      var k := Pick(used);
      var rest := FreshPid(used - {k});
      pid := if k < rest then rest else k + 1;
      forall j | j in used ensures j < pid { assert j == k || j in used - {k}; }
    }
  }

  lemma {:induction false} Prepend(w: World, s: Sys, op: Op, ops: seq<Op>, link: Key)
    requires !Links(w, s, op, link) && Quiet(w, Apply(w, s, op), ops, link)
    ensures Runs(w, s, [op] + ops) == Runs(w, Apply(w, s, op), ops) && Quiet(w, s, [op] + ops, link)
    decreases |ops|
  {
    hide Apply, Links;
    var all := [op] + ops;
    if ops == [] {
      assert all[..0] == [] && all == [op];
    } else {
      Prepend(w, s, op, ops[..|ops| - 1], link);
      assert all[..|all| - 1] == [op] + ops[..|ops| - 1];
    }
  }

  /** A stale read can always go on to drop the tag, without anyone linking it. */
  lemma {:induction false} StaleDrops(w: World, s: Sys, link: Key, stale: nat) returns (ops: seq<Op>)
    requires Sound(w) && Inv(w, s) && link.Tag? && stale in s.procs && Stale(w, s.procs[stale], link)
    ensures Quiet(w, s, ops, link) && link !in Runs(w, s, ops).store
    decreases
      var p := s.procs[stale];
      if p.GetUnlink? then 0 else if p.GetClean? then 1 else if BlobKey(p.digest) in s.store then 2 else 3
  {
    hide Quiet, Runs, Consistent, Informed;
    var p := s.procs[stale];
    var junk :| Digest(w, junk) == p.digest && w.mediaType(junk).None?;
    DigestClean(w, junk);
    if p.GetUnlink? {
      ops := [Step(stale)];
      One(w, s, Step(stale), link);
    } else if p.GetClean? || BlobKey(p.digest) in s.store {
      if p.GetData? { BlobOfJunk(w, s.store, p.digest, junk); }
      InvApply(w, s, Step(stale));
      ops := StaleDrops(w, Apply(w, s, Step(stale)), link, stale);
      Prepend(w, s, Step(stale), ops, link);
      ops := [Step(stale)] + ops;
    } else {
      var q := FreshPid(s.procs.Keys);
      var begin := Begin(q, BlobPut(p.digest, junk));
      var a := Apply(w, s, begin);
      InvApply(w, s, begin);
      InvApply(w, a, Step(q));
      ops := StaleDrops(w, Apply(w, a, Step(q)), link, stale);
      Prepend(w, a, Step(q), ops, link);
      Prepend(w, s, begin, [Step(q)] + ops, link);
      ops := [begin] + ([Step(q)] + ops);
    }
  }

  lemma One(w: World, s: Sys, op: Op, link: Key)
    requires !Links(w, s, op, link)
    ensures Runs(w, s, [op]) == Apply(w, s, op) && Quiet(w, s, [op], link)
  {
    assert [op][..0] == [];
  }

  lemma BlobOfJunk(w: World, store: Store, digest: string, junk: string)
    requires Sound(w) && Consistent(w, store) && BlobKey(digest) in store && Digest(w, junk) == digest
    ensures store[BlobKey(digest)] == junk
  {
    DigestClean(w, junk);
    HashUnique(w, store[BlobKey(digest)], junk);
  }

  /** Exactly when a readable tag stays readable until it is linked again: when no stale read of it is under way. */
  lemma TagStays(w: World, s: Sys, link: Key, content: string)
    requires Sound(w) && Inv(w, s) && link.Tag? && !HasPrefix(link.tag, DIGEST_PREFIX)
    requires w.mediaType(content).Some? && Reads(w, s, link, content)
    ensures
      (forall ops | Quiet(w, s, ops, link) :: Reads(w, Runs(w, s, ops), link, content)) <==> !AnyStale(w, s, link)
  {
    hide Quiet, Runs, Stale, Sound, Consistent, Informed;
    DigestClean(w, content);
    if AnyStale(w, s, link) {
      var pid :| pid in s.procs && Stale(w, s.procs[pid], link);
      var ops := StaleDrops(w, s, link, pid);
      assert !Reads(w, Runs(w, s, ops), link, content);
    } else {
      forall ops | Quiet(w, s, ops, link) ensures Reads(w, Runs(w, s, ops), link, content) {
        HeldRuns(w, s, ops, link, content);
        InvRuns(w, s, ops);
        BlobStays(w, s, ops, content);
        HeldReads(w, Runs(w, s, ops), link, content);
      }
    }
  }

  /** A put by tag that finishes reads back by that tag, if nobody else linked it since its own first write
      and no stale read was under way then. */
  lemma PutReadsBackByTag(w: World, s: Sys, put: nat, ops: seq<Op>)
    requires Sound(w) && Inv(w, s) && put in s.procs && s.procs[put].PutTag?
    requires
      var p := s.procs[put];
      var link := Tag(p.host, p.image, p.ref);
      && Acceptable(w, p.ref, p.content) && !HasPrefix(p.ref, DIGEST_PREFIX) && !AnyStale(w, s, link)
      && Quiet(w, Apply(w, s, Step(put)), ops, link)
    requires
      var end := Runs(w, Apply(w, s, Step(put)), ops);
      var p := s.procs[put];
      put in end.procs && end.procs[put] == PutDone(p.host, p.image, p.ref, p.content)
    ensures
      var p := s.procs[put];
      Reads(w, Runs(w, Apply(w, s, Step(put)), ops), Tag(p.host, p.image, p.ref), p.content)
  {
    hide Quiet, Runs, Sound, Consistent;
    var p := s.procs[put];
    var link := Tag(p.host, p.image, p.ref);
    var s1 := Apply(w, s, Step(put));
    InvApply(w, s, Step(put));
    assert Held(w, s1, link, p.content) by {
      forall pid | pid in s1.procs ensures !Stale(w, s1.procs[pid], link) {
        assert pid != put ==> s1.procs[pid] == s.procs[pid] && pid in s.procs;
      }
    }
    HeldRuns(w, s1, ops, link, p.content);
    InvRuns(w, s1, ops);
    var end := Runs(w, s1, ops);
    assert Informed(w, end.store, end.procs[put]);
    HeldReads(w, end, link, p.content);
  }

  // ---- Where stale reads come from.

  /** Nobody relinks, every tag names a manifest, and so does what any read of a tag has seen. */
  ghost predicate PutsOnly(w: World, s: Sys) {
    && (forall host, image, tag | Tag(host, image, tag) in s.store :: !Junk(w, s.store[Tag(host, image, tag)]))
    && (forall pid | pid in s.procs :: Harmless(w, s.procs[pid]))
  }

  ghost predicate Harmless(w: World, p: Proc) {
    && !p.RelinkStat? && !p.RelinkTag? && !p.RelinkRev?
    && ((p.GetData? || p.GetClean? || p.GetUnlink?) && !HasPrefix(p.ref, DIGEST_PREFIX) ==> !Junk(w, p.digest))
  }

  lemma HarmlessStep(w: World, store: Store, p: Proc)
    requires Sound(w) && Informed(w, store, p) && Harmless(w, p)
    requires forall host, image, tag | Tag(host, image, tag) in store :: !Junk(w, store[Tag(host, image, tag)])
    ensures Harmless(w, StepProc(w, store, p).1)
    ensures
      var next := StepProc(w, store, p).0;
      forall host, image, tag | Tag(host, image, tag) in next :: !Junk(w, next[Tag(host, image, tag)])
  {
    if p.PutTag? && Acceptable(w, p.ref, p.content) && Junk(w, Digest(w, p.content)) {
      DigestClean(w, p.content);
      JunkIsNoManifest(w, Digest(w, p.content), p.content);
    }
    if p.GetData? && BlobKey(p.digest) in store && w.mediaType(store[BlobKey(p.digest)]).None? {
      HarmlessRead(w, store, p);
    }
  }

  lemma HarmlessRead(w: World, store: Store, p: Proc)
    requires p.GetData? && Harmless(w, p)
    ensures Harmless(w, GetClean(p.host, p.image, p.ref, p.digest))
  {
  }

  /** Without relinks no read is ever stale, so a finished put is lost only to a later put of the same tag. */
  lemma {:induction false} PutsOnlyNeverStale(w: World, ops: seq<Op>)
    requires Sound(w)
    requires forall k | 0 <= k < |ops| && ops[k].Begin? :: !ops[k].proc.RelinkStat?
    ensures PutsOnly(w, Runs(w, Empty(), ops))
    ensures
      var s := Runs(w, Empty(), ops);
      forall link: Key | link.Tag? && !HasPrefix(link.tag, DIGEST_PREFIX) :: !AnyStale(w, s, link)
    decreases |ops|
  {
    hide Sound, Junk, Consistent, Informed, StepProc, Acceptable;
    if ops != [] {
      var before, op := ops[..|ops| - 1], ops[|ops| - 1];
      PutsOnlyNeverStale(w, before);
      EmptyIsConsistent(w);
      InvRuns(w, Empty(), before);
      var s := Runs(w, Empty(), before);
      if op.Step? && op.pid in s.procs { HarmlessStep(w, s.store, s.procs[op.pid]); }
    }
    HarmlessIsNotStale(w, Runs(w, Empty(), ops));
  }

  lemma HarmlessIsNotStale(w: World, s: Sys)
    requires PutsOnly(w, s)
    ensures forall link: Key | link.Tag? && !HasPrefix(link.tag, DIGEST_PREFIX) :: !AnyStale(w, s, link)
  {
    forall link: Key | link.Tag? && !HasPrefix(link.tag, DIGEST_PREFIX) ensures !AnyStale(w, s, link) {
      forall pid | pid in s.procs ensures !Stale(w, s.procs[pid], link) {}
    }
  }

  /** A relink points a tag at a layer, and a read of the tag is under way. */
  lemma StaleReadArises(w: World, layer: string) returns (ops: seq<Op>)
    requires Sound(w) && w.mediaType(layer).None?
    ensures
      var s, d := Runs(w, Empty(), ops), Digest(w, layer);
      && s.store == map[Blob(w.hash(layer)) := layer, Tag("h", "i", "t") := d]
      && s.procs == map[0 := BlobDone, 1 := RelinkRev("h", "i", "t", d), 2 := GetData("h", "i", "t", d)]
    ensures forall k | 0 <= k < |ops| && ops[k].Begin? :: !ops[k].proc.PutTag?
  {
    hide Runs, Sound;
    var d := Digest(w, layer);
    DigestClean(w, layer);
    SoundLength(w, layer);
    assert "t"[0] != DIGEST_PREFIX[0];
    RunsNone(w, Empty());
    ops := [];
    ops := Then(w, ops, Begin(0, BlobPut(d, layer)));
    ops := Then(w, ops, Step(0));
    ops := Then(w, ops, Begin(1, RelinkStat("h", "i", "t", d)));
    ops := Then(w, ops, Step(1));
    ops := Then(w, ops, Step(1));
    ops := Then(w, ops, Begin(2, GetLink("h", "i", "t")));
    ops := Then(w, ops, Step(2));
  }

  /** A put of the tag starts and finishes while that read is about to clean up. */
  lemma PutDuringStaleRead(w: World, layer: string, content: string) returns (ops: seq<Op>)
    requires Sound(w) && w.mediaType(layer).None? && w.mediaType(content).Some?
    ensures
      var s := Runs(w, Empty(), ops);
      && 3 in s.procs && s.procs[3] == PutDone("h", "i", "t", content)
      && 2 in s.procs && s.procs[2] == GetClean("h", "i", "t", Digest(w, layer))
      && forall k | 0 <= k < |ops| && ops[k].Begin? && ops[k].proc.PutTag? :: ops[k].pid == 3
  {
    hide Runs, Sound;
    assert "t"[0] != DIGEST_PREFIX[0];
    DigestClean(w, layer);
    ops := StaleReadArises(w, layer);
    ops := Then(w, ops, Step(2));
    ghost var s := Runs(w, Empty(), ops);
    assert s.procs[2] == GetClean("h", "i", "t", Digest(w, layer)) && 3 !in s.procs;
    ops := Then(w, ops, Begin(3, PutTag("h", "i", "t", content)));
    ops := Then(w, ops, Step(3));
    ops := Then(w, ops, Step(3));
    ops := Then(w, ops, Step(3));
  }

  /** With relinks a finished put can be lost: the clean-up of such a read drops the tag that a put,
      started and finished meanwhile, has just written. */
  lemma RelinkCanLoseAPut(w: World, layer: string, content: string) returns (ops: seq<Op>)
    requires Sound(w) && w.mediaType(layer).None? && w.mediaType(content).Some?
    ensures
      var s := Runs(w, Empty(), ops);
      && 3 in s.procs && s.procs[3] == PutDone("h", "i", "t", content)
      && Lookup(w, s.store, "h", "i", "t") == None
      && forall k | 0 <= k < |ops| && ops[k].Begin? && ops[k].proc.PutTag? :: ops[k].pid == 3
  {
    hide Runs, Sound, Acceptable, Digest;
    assert "t"[0] != DIGEST_PREFIX[0];
    ops := PutDuringStaleRead(w, layer, content);
    ops := Then(w, ops, Step(2));
    ops := Then(w, ops, Step(2));
    assert Tag("h", "i", "t") !in Runs(w, Empty(), ops).store;
  }

  lemma Then(w: World, ops: seq<Op>, op: Op) returns (more: seq<Op>)
    ensures more == ops + [op] && Runs(w, Empty(), more) == Apply(w, Runs(w, Empty(), ops), op)
  {
    more := ops + [op];
    assert more[..|ops|] == ops;
  }

  lemma RunsNone(w: World, s: Sys)
    ensures Runs(w, s, []) == s
  {
  }

  lemma SoundLength(w: World, c: string)
    requires Sound(w)
    ensures |w.hash(c)| >= 2
  {
  }

  // ---- A call that is not interrupted does what the sequential methods of the cache do.

  /** A single call stepped by itself: `n` accesses to the store. */
  function Alone(w: World, store: Store, p: Proc, n: nat): (Store, Proc)
    decreases n
  {
    if n == 0 then (store, p) else
    var (next, q) := StepProc(w, store, p);
    Alone(w, next, q, n - 1)
  }

  lemma PutAlone(w: World, store: Store, p: Proc)
    requires p.PutTag?
    ensures
      var (end, q) := Alone(w, store, p, 3);
      if Acceptable(w, p.ref, p.content) then
        end == Published(w, store, p.host, p.image, p.ref, p.content) && q == PutDone(p.host, p.image, p.ref, p.content)
      else end == store && q == PutRejected(p.host, p.image, p.ref, p.content)
  {
    hide Acceptable;
    var (a, x) := StepProc(w, store, p);
    var (b, y) := StepProc(w, a, x);
    assert Alone(w, store, p, 3) == Alone(w, a, x, 2) == Alone(w, b, y, 1) == StepProc(w, b, y);
  }

  lemma RelinkAlone(w: World, store: Store, p: Proc)
    requires p.RelinkStat?
    ensures
      var (end, q) := Alone(w, store, p, 3);
      var path := BlobPath(EnsureDigestPrefix(p.blob));
      && q == (if path.None? then Stopped else RelinkDone)
      && end == if path.None? || path.value !in store then store
                else Relinked(store, p.host, p.image, p.tag, p.blob)
  {
    hide EnsureDigestPrefix, BlobKey, CleanDigest;
    var (a, x) := StepProc(w, store, p);
    var (b, y) := StepProc(w, a, x);
    assert Alone(w, store, p, 3) == Alone(w, a, x, 2) == Alone(w, b, y, 1) == StepProc(w, b, y);
  }

  lemma AloneTwo(w: World, store: Store, p: Proc, n: nat)
    ensures
      var (a, x) := StepProc(w, store, p);
      var (b, y) := StepProc(w, a, x);
      Alone(w, store, p, n + 2) == Alone(w, b, y, n) && (n == 0 ==> Alone(w, b, y, n) == (b, y))
  {
    hide StepProc;
    var (a, x) := StepProc(w, store, p);
    assert Alone(w, store, p, n + 2) == Alone(w, a, x, n + 1);
  }

  lemma GetAlone(w: World, store: Store, p: Proc)
    requires p.GetLink?
    ensures
      var link := LinkKey(p.host, p.image, p.ref);
      var (end, q) := Alone(w, store, p, 4);
      && q == Got(p.host, p.image, p.ref, Lookup(w, store, p.host, p.image, p.ref))
      && end == if Dirty(w, store, link) then store - {BlobKey(store[link]), link} else store
  {
    hide LinkKey, BlobKey, Alone;
    var (a, x) := StepProc(w, store, p);
    var (b, y) := StepProc(w, a, x);
    AloneTwo(w, store, p, 2);
    AloneTwo(w, b, y, 0);
    assert y.GetClean? <==> Dirty(w, store, LinkKey(p.host, p.image, p.ref));
  }
}
