/** Completing several partly written copies of a blob from one download that starts at the
    shortest of them (the resume section of pkg/runner/runner_blob.go). */
module ResumeBlob {
  import opened Collections

  type Bytes = seq<bv8>

  const MAX_INT: int := 0x7fff_ffff_ffff_ffff

  /** A cache file being written. Writes and commits may fail at any time; a failed write may
      have written a part. `intact` records that no write has failed since the file was opened. */
  class FileWriter {
    var content: Bytes
    var intact: bool

    constructor (content: Bytes)
      ensures this.content == content && intact
    {
      this.content, intact := content, true;
    }

    method Write(p: Bytes) returns (n: nat, ok: bool)
      modifies this
      ensures n <= |p| && content == old(content) + p[..n]
      ensures ok ==> n == |p|
      ensures intact <==> old(intact) && ok
    {
      n :| n <= |p|;
      ok :| ok ==> n == |p|;
      content := content + p[..n];
      intact := intact && ok;
    }
  }

  // ---- skipWriter ----

  function Min(a: int, b: int): int { if a < b then a else b }
  function Max(a: int, b: int): int { if a < b then b else a }

  /** What a skipWriter passes on of the next chunk when `skipped` of `offset` bytes are gone. */
  function Passed(skipped: nat, offset: nat, p: Bytes): Bytes {
    if skipped >= offset then p else if |p| <= offset - skipped then [] else p[offset - skipped..]
  }

  class SkipWriter {
    const writer: FileWriter
    const offset: nat
    var skipped: nat

    constructor (writer: FileWriter, offset: nat)
      ensures this.writer == writer && this.offset == offset && skipped == 0
    {
      this.writer, this.offset, skipped := writer, offset, 0;
    }

    method Write(p: Bytes) returns (n: nat, ok: bool)
      modifies this, writer
      ensures ok ==> n == |p| && writer.content == old(writer.content) + Passed(old(skipped), offset, p)
      ensures old(skipped) <= offset ==> skipped == Min(offset, old(skipped) + |p|)
      ensures writer.intact <==> old(writer.intact) && ok
      ensures old(skipped) < offset && old(skipped) + |p| <= offset ==> ok
    {
      if skipped >= offset {
        n, ok := writer.Write(p);
        return;
      }
      var remaining := offset - skipped;
      if |p| <= remaining {
        skipped := skipped + |p|;
        return |p|, true;
      }
      skipped := offset;
      var written, fine := writer.Write(p[remaining..]);
      assert fine ==> p[remaining..][..written] == p[remaining..];
      n, ok := remaining + written, fine;
    }
  }

  /** What a fresh skipWriter passes on of a sequence of chunks. */
  function PassedAll(offset: nat, chunks: seq<Bytes>): Bytes {
    if chunks == [] then []
    else
      var before := chunks[..|chunks| - 1];
      PassedAll(offset, before) + Passed(Min(offset, |Flatten(before)|), offset, chunks[|chunks| - 1])
  }

  /** However the stream is cut, a skipWriter passes on all of it but the first `offset` bytes. */
  lemma {:induction false} SkipsExactly(offset: nat, chunks: seq<Bytes>)
    ensures PassedAll(offset, chunks) == Flatten(chunks)[Min(offset, |Flatten(chunks)|)..]
  {
    if chunks != [] {
      hide Passed, Min;
      var before := chunks[..|chunks| - 1];
      SkipsExactly(offset, before);
      PassedAppends(offset, Flatten(before), chunks[|chunks| - 1]);
    }
  }

  lemma PassedAppends(offset: nat, s: Bytes, p: Bytes)
    ensures s[Min(offset, |s|)..] + Passed(Min(offset, |s|), offset, p) == (s + p)[Min(offset, |s + p|)..]
  {
  }

  /** A fresh skipWriter that is handed a stream in any chunks lets its file grow by all of the stream but
      the first `offset` bytes. */
  method WriteChunks(w: SkipWriter, chunks: seq<Bytes>) returns (ok: bool)
    requires w.skipped == 0
    modifies w, w.writer
    ensures ok ==> w.writer.content == old(w.writer.content) + Flatten(chunks)[Min(w.offset, |Flatten(chunks)|)..]
    ensures ok ==> w.skipped == Min(w.offset, |Flatten(chunks)|)
    ensures w.writer.intact <==> old(w.writer.intact) && ok
  {
    for i := 0 to |chunks|
      invariant w.writer.content == old(w.writer.content) + PassedAll(w.offset, chunks[..i])
      invariant w.skipped == Min(w.offset, |Flatten(chunks[..i])|)
      invariant w.writer.intact == old(w.writer.intact)
    {
      assert chunks[..i + 1][..i] == chunks[..i];
      var n, fine := w.Write(chunks[i]);
      if !fine { return false; }
      ghost var passed := Passed(Min(w.offset, |Flatten(chunks[..i])|), w.offset, chunks[i]);
      assert old(w.writer.content) + PassedAll(w.offset, chunks[..i]) + passed
          == old(w.writer.content) + (PassedAll(w.offset, chunks[..i]) + passed);
    }
    assert chunks[..|chunks|] == chunks;
    SkipsExactly(w.offset, chunks);
    return true;
  }

  // ---- the writers of one resumed download ----

  datatype Target = Direct(file: FileWriter) | Skipping(skip: SkipWriter)

  function FileOf(t: Target): FileWriter { if t.Direct? then t.file else t.skip.writer }

  /** The copy of `t` is the source up to where it was (`length`) or where the download is
      (`pos`), whichever is further, and a skipping writer has skipped what it should. */
  ghost predicate InStep(t: Target, source: Bytes, start: nat, length: nat, pos: nat)
    reads FileOf(t), if t.Skipping? then {t.skip} else {}
  {
    && start <= length <= |source| && start <= pos <= |source|
    && FileOf(t).content == source[..Max(length, pos)]
    && (t.Direct? ==> length == start)
    && (t.Skipping? ==> t.skip.offset == length - start && t.skip.skipped == Min(t.skip.offset, pos - start))
  }

  ghost predicate Apart(ts: seq<Target>) {
    && (forall i, j | 0 <= i < j < |ts| :: FileOf(ts[i]) != FileOf(ts[j]))
    && (forall i, j | 0 <= i < j < |ts| && ts[i].Skipping? && ts[j].Skipping? :: ts[i].skip != ts[j].skip)
  }

  ghost function Objects(ts: seq<Target>): set<object> {
    (set i | 0 <= i < |ts| :: FileOf(ts[i]) as object) +
    (set i | 0 <= i < |ts| && ts[i].Skipping? :: ts[i].skip as object)
  }

  method WriteOne(t: Target, p: Bytes, ghost source: Bytes, ghost start: nat, ghost length: nat, ghost pos: nat)
    returns (n: nat, ok: bool)
    requires InStep(t, source, start, length, pos)
    requires pos + |p| <= |source| && p == source[pos..pos + |p|]
    modifies FileOf(t), if t.Skipping? then {t.skip} else {}
    ensures ok ==> n == |p| && InStep(t, source, start, length, pos + |p|)
    ensures FileOf(t).intact <==> old(FileOf(t).intact) && ok
  {
    match t {
      case Direct(file) =>
        n, ok := file.Write(p);
        assert ok ==> p[..n] == p && source[..pos] + p == source[..pos + |p|];
      case Skipping(skip) =>
        n, ok := skip.Write(p);
        if ok { PassedFits(source, p, start, length, pos); }
    }
  }

  lemma PassedFits(source: Bytes, p: Bytes, start: nat, length: nat, pos: nat)
    requires start <= length <= |source| && start <= pos && pos + |p| <= |source| && p == source[pos..pos + |p|]
    ensures source[..Max(length, pos)] + Passed(Min(length - start, pos - start), length - start, p)
         == source[..Max(length, pos + |p|)]
  {
  }

  ghost predicate AllIntact(ts: seq<Target>)
    reads set i | 0 <= i < |ts| :: FileOf(ts[i])
  {
    forall i | 0 <= i < |ts| :: FileOf(ts[i]).intact
  }

  /** The io.MultiWriter: every target in turn, stopping at the first that fails or falls short. */
  method WriteAll(ts: seq<Target>, p: Bytes, ghost source: Bytes, ghost start: nat, ghost lengths: seq<nat>,
                  ghost pos: nat)
    returns (ok: bool)
    requires Apart(ts) && |lengths| == |ts|
    requires forall i | 0 <= i < |ts| :: InStep(ts[i], source, start, lengths[i], pos)
    requires pos + |p| <= |source| && p == source[pos..pos + |p|] && AllIntact(ts)
    modifies Objects(ts)
    ensures ok ==> forall i | 0 <= i < |ts| :: InStep(ts[i], source, start, lengths[i], pos + |p|)
    ensures ok <==> AllIntact(ts)
  {
    hide InStep;
    for k := 0 to |ts|
      invariant AllIntact(ts)
      invariant forall i | 0 <= i < k :: InStep(ts[i], source, start, lengths[i], pos + |p|)
      invariant forall i | k <= i < |ts| :: InStep(ts[i], source, start, lengths[i], pos)
    {
      assert FileOf(ts[k]) in Objects(ts);
      assert ts[k].Skipping? ==> ts[k].skip in Objects(ts);
      var n, fine := WriteOne(ts[k], p, source, start, lengths[k], pos);
      if !fine || n != |p| { return false; }
    }
    return true;
  }

  function Total(cuts: seq<nat>): nat {
    if cuts == [] then 0 else Total(cuts[..|cuts| - 1]) + cuts[|cuts| - 1]
  }

  /** io.Copy from the counting reader to the targets. The upstream delivers `source` from
      `start` on in chunks of at most `cuts` bytes, then ends, or fails if `broken`. */
  method Copy(ts: seq<Target>, source: Bytes, start: nat, ghost lengths: seq<nat>, cuts: seq<nat>, broken: bool)
    returns (n: nat, counted: nat, ok: bool)
    requires Apart(ts) && |lengths| == |ts| && start <= |source| && AllIntact(ts)
    requires forall i | 0 <= i < |ts| :: InStep(ts[i], source, start, lengths[i], start)
    modifies Objects(ts)
    ensures ok <==> !broken && AllIntact(ts)
    ensures ok ==> counted == n == Min(Total(cuts), |source| - start)
    ensures ok ==> forall i | 0 <= i < |ts| :: InStep(ts[i], source, start, lengths[i], start + n)
  {
    n, counted := 0, 0;
    for k := 0 to |cuts|
      invariant counted == n == Min(Total(cuts[..k]), |source| - start) && AllIntact(ts)
      invariant forall i | 0 <= i < |ts| :: InStep(ts[i], source, start, lengths[i], start + n)
    {
      assert cuts[..k + 1][..k] == cuts[..k];
      var pos := start + n;
      var p := source[pos..Min(pos + cuts[k], |source|)];
      counted := counted + |p|;
      if |p| > 0 {
        var fine := WriteAll(ts, p, source, start, lengths, pos);
        if !fine { return n, counted, false; }
        n := n + |p|;
      }
    }
    assert cuts[..|cuts|] == cuts;
    ok := !broken;
  }

  /** What opening the writer of one cache gave: a copy to append to, a fresh hash-checked
      file because appending failed, or nothing. */
  datatype Opened = Appending(file: FileWriter) | Fallback(file: FileWriter) | Unavailable

  /** The copies a previous, interrupted download left: beginnings of the source. */
  ghost predicate Resumable(slots: seq<Opened>, source: Bytes)
    reads set o | o in slots && !o.Unavailable? :: o.file
  {
    && (forall k | 0 <= k < |slots| && slots[k].Appending? :: slots[k].file.content <= source)
    && (forall k | 0 <= k < |slots| && slots[k].Fallback? :: slots[k].file.content == [])
    && (forall k | 0 <= k < |slots| && !slots[k].Unavailable? :: slots[k].file.intact)
    && (forall i, j | 0 <= i < j < |slots| && !slots[i].Unavailable? && !slots[j].Unavailable? ::
          slots[i].file != slots[j].file)
  }

  /** The loop over the caches: the offset to start from is the length of the shortest copy,
      and 0 as soon as one cache had to fall back. */
  method Open(slots: seq<Opened>, ghost source: Bytes) returns (files: seq<FileWriter>, offset: int, ok: bool)
    requires Resumable(slots, source) && |source| <= MAX_INT
    ensures ok <==> Unavailable !in slots
    ensures ok ==> |files| == |slots| && forall k | 0 <= k < |files| :: files[k] == slots[k].file
    ensures ok ==> 0 <= offset <= MAX_INT && forall k | 0 <= k < |files| :: offset <= |files[k].content|
    ensures ok && slots != [] ==> exists k :: 0 <= k < |files| && offset == |files[k].content|
    ensures ok && (exists k :: 0 <= k < |slots| && slots[k].Fallback?) ==> offset == 0
  {
    offset, files := MAX_INT, [];
    for k := 0 to |slots|
      invariant |files| == k && Unavailable !in slots[..k]
      invariant forall i | 0 <= i < k :: !slots[i].Unavailable? && files[i] == slots[i].file
      invariant 0 <= offset <= MAX_INT && forall i | 0 <= i < k :: offset <= |files[i].content|
      invariant if k == 0 then offset == MAX_INT else exists i :: 0 <= i < k && offset == |files[i].content|
      invariant (exists i :: 0 <= i < k && slots[i].Fallback?) ==> offset == 0
    {
      ghost var before, best := offset, files;
      match slots[k] {
        case Appending(f) =>
          if offset != 0 { offset := Min(offset, |f.content|); }
          files := files + [f];
        case Fallback(f) =>
          offset := 0;
          files := files + [f];
        case Unavailable =>
          return files, offset, false;
      }
      assert files[k] == slots[k].file;
      if offset == before && k > 0 {
        var i :| 0 <= i < k && before == |best[i].content|;
        assert files[i] == best[i];
      } else {
        assert offset == |files[k].content|;
      }
      assert slots[..k + 1] == slots[..k] + [slots[k]];
    }
    ok := true;
    assert slots[..|slots|] == slots;
  }

  ghost predicate Intact(slots: seq<Opened>)
    reads set o | o in slots && !o.Unavailable? :: o.file
  {
    forall k | 0 <= k < |slots| && !slots[k].Unavailable? :: slots[k].file.intact
  }

  /** Every copy commits, is found afterwards, and has the expected size. */
  ghost predicate Confirmed(slots: seq<Opened>, size: nat, storage: seq<Answer>)
    requires |storage| == |slots|
    reads set o | o in slots && !o.Unavailable? :: o.file
  {
    forall k | 0 <= k < |slots| ::
      !slots[k].Unavailable? && storage[k].committed && storage[k].found && |slots[k].file.content| == size
  }

  /** The whole section. When it succeeds every copy is the source up to `size`, and so is
      the progress, however the copies differed in length and the stream was cut; a fallback
      writer gets the stream from its first byte. */
  method Resume(slots: seq<Opened>, source: Bytes, size: nat, cuts: seq<nat>, broken: bool, storage: seq<Answer>)
    returns (ok: bool, started: int, progress: int, deleted: set<nat>)
    requires slots != [] && Resumable(slots, source) && |source| <= MAX_INT && |storage| == |slots|
    modifies set o | o in slots && !o.Unavailable? :: o.file
    ensures ok ==> size <= |source| && progress == size
    ensures ok ==> forall k | 0 <= k < |slots| :: !slots[k].Unavailable? && slots[k].file.content == source[..size]
    ensures Unavailable !in slots ==>
      && (forall k | 0 <= k < |slots| :: 0 <= started <= old(|slots[k].file.content|))
      && (exists k :: 0 <= k < |slots| && started == old(|slots[k].file.content|))
    ensures ok <==>
      && Unavailable !in slots && started <= size
      && (started < size ==> !broken && Intact(slots) && started + Min(Total(cuts), |source| - started) == size)
      && Confirmed(slots, size, storage)
    ensures ok && (exists k :: 0 <= k < |slots| && slots[k].Fallback?) ==> started == 0
    ensures forall k | k in deleted :: k < |slots| && !slots[k].Unavailable? && |slots[k].file.content| != size
    ensures ok ==> deleted == {}
  {
    progress, deleted := 0, {};
    var files, offset, fine := Open(slots, source);
    started := offset;
    if !fine { return false, started, progress, {}; }
    assert forall k | 0 <= k < |files| :: !slots[k].Unavailable? by {
      forall k | 0 <= k < |files| ensures !slots[k].Unavailable? { assert slots[k] in slots; }
    }
    if offset > size { return false, started, progress, {}; }
    progress := offset;
    if offset != size {
      var counted, copied := Download(files, offset, size, source, cuts, broken);
      progress := progress + counted;
      if !copied { return false, started, progress, {}; }
    }
    ok, deleted := Commit(files, size, storage);
  }

  /** The download itself: every copy becomes the source up to `size`, or stays as it was if it
      is longer than that. */
  method Download(files: seq<FileWriter>, offset: nat, size: nat, source: Bytes, cuts: seq<nat>, broken: bool)
    returns (counted: nat, ok: bool)
    requires forall k | 0 <= k < |files| :: offset <= |files[k].content| && files[k].content <= source
    requires forall i, j | 0 <= i < j < |files| :: files[i] != files[j]
    requires offset <= size && offset <= |source| && forall k | 0 <= k < |files| :: files[k].intact
    modifies files
    ensures ok <==>
      && !broken && (forall k | 0 <= k < |files| :: files[k].intact)
      && offset + Min(Total(cuts), |source| - offset) == size
    ensures ok ==> offset + counted == size <= |source|
    ensures ok ==> forall k | 0 <= k < |files| :: files[k].content == source[..Max(old(|files[k].content|), size)]
  {
    ghost var lengths := seq(|files|, i requires 0 <= i < |files| reads files => |files[i].content|);
    var targets := MakeTargets(files, offset, source, lengths);
    var n, copied;
    n, counted, copied := Copy(targets, source, offset, lengths, cuts, broken);
    ok := copied && offset + n == size;
    assert ok ==> forall k | 0 <= k < |files| :: InStep(targets[k], source, offset, lengths[k], size);
  }

  /** The writers of the download: direct for the shortest copies, skipping for the others.
      The branch that panics is for a copy shorter than the offset and is never taken. */
  method MakeTargets(files: seq<FileWriter>, offset: nat, ghost source: Bytes, ghost lengths: seq<nat>)
    returns (targets: seq<Target>)
    requires |lengths| == |files| && forall k | 0 <= k < |files| :: lengths[k] == |files[k].content|
    requires forall k | 0 <= k < |files| :: offset <= |files[k].content| && files[k].content <= source
    requires forall i, j | 0 <= i < j < |files| :: files[i] != files[j]
    ensures |targets| == |files| && forall k | 0 <= k < |files| :: FileOf(targets[k]) == files[k]
    ensures forall k | 0 <= k < |files| :: InStep(targets[k], source, offset, lengths[k], offset)
    ensures forall k | 0 <= k < |files| && targets[k].Skipping? :: fresh(targets[k].skip)
    ensures Apart(targets)
  {
    targets := [];
    for k := 0 to |files|
      invariant |targets| == k && forall i | 0 <= i < k :: FileOf(targets[i]) == files[i]
      invariant forall i | 0 <= i < k :: InStep(targets[i], source, offset, lengths[i], offset)
      invariant forall i | 0 <= i < k && targets[i].Skipping? :: fresh(targets[i].skip)
      invariant Apart(targets)
    {
      var n := |files[k].content| - offset;
      if n == 0 {
        targets := targets + [Direct(files[k])];
      } else if n > 0 {
        var skip := new SkipWriter(files[k], n);
        targets := targets + [Skipping(skip)];
      } else {
        assert false;
      }
    }
  }

  /** What the storage answers about one copy: whether it commits, can be looked at, and can be deleted. */
  datatype Answer = Answer(committed: bool, found: bool, removed: bool)

  /** A copy found with another size than expected is deleted. Success means that nothing failed and every
      copy has that size. */
  method Commit(files: seq<FileWriter>, size: nat, storage: seq<Answer>) returns (ok: bool, deleted: set<nat>)
    requires |storage| == |files|
    ensures ok <==>
      forall k | 0 <= k < |files| :: storage[k].committed && storage[k].found && |files[k].content| == size
    ensures forall k :: k in deleted <==>
      0 <= k < |files| && storage[k].found && storage[k].removed && |files[k].content| != size
  {
    ok, deleted := true, {};
    for k := 0 to |files|
      invariant ok <==> forall i | 0 <= i < k :: storage[i].committed
    {
      if !storage[k].committed { ok := false; }
    }
    ghost var committed := ok;
    for k := 0 to |files|
      invariant ok <==> committed && forall i | 0 <= i < k :: storage[i].found && |files[i].content| == size
      invariant forall i :: i in deleted <==>
        0 <= i < k && storage[i].found && storage[i].removed && |files[i].content| != size
    {
      if !storage[k].found {
        ok := false;
      } else if |files[k].content| != size {
        if storage[k].removed { deleted := deleted + {k}; }
        ok := false;
      }
    }
  }
}
