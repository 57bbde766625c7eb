/** The seekable reader of internal/seeker/seeker.go, built from one-way readers that can be
    opened at any offset but may read short, end early or fail. */
module Seeker {
  import opened Collections

  type Bytes = seq<bv8>

  datatype Status = More | EOF | Failed

  /** A one-way reader over `data`. It delivers the bytes in order, as few at a time as it
      likes, and may answer with an end or an error at any point. */
  class Reader {
    const data: Bytes
    var pos: nat
    var closed: bool

    constructor (data: Bytes, start: nat)
      requires start <= |data|
      ensures this.data == data && pos == start && !closed
    {
      this.data, pos, closed := data, start, false;
    }

    method Read(limit: nat, answer: Status) returns (p: Bytes, status: Status)
      requires pos <= |data| && !closed
      modifies this`pos
      ensures |p| <= limit && pos == old(pos) + |p| && pos <= |data|
      ensures p == data[old(pos)..pos] && status == answer
    {
      var n: nat :| n <= limit && pos + n <= |data|;
      p := data[pos..pos + n];
      pos := pos + n;
      status := answer;
    }

    method Close()
      modifies this`closed
      ensures closed
    {
      closed := true;
    }
  }

  datatype Whence = SeekStart | SeekCurrent | SeekEnd | Other

  /** Where a seek asks to go; negative when the program refuses it. */
  function Target(offset: nat, size: nat, delta: int, whence: Whence): int {
    match whence
    case SeekStart => delta
    case SeekCurrent => offset + delta
    case SeekEnd => size + delta
    case Other => -1
  }

  class ReadSeekCloser {
    const data: Bytes
    const size: nat
    var offset: nat
    var current: Reader?

    /** The offset stays within the size, and an open reader stands exactly at it. */
    ghost predicate Valid()
      reads this, current
    {
      && size == |data| && offset <= size
      && (current != null ==> current.data == data && current.pos == offset && !current.closed)
    }

    constructor (data: Bytes)
      ensures Valid() && this.data == data && offset == 0 && current == null
    {
      this.data, size, offset, current := data, |data|, 0, null;
    }

    /** Whether a read before the end gets as far as a reader. */
    predicate Reads(reader: Reader?, available: bool) {
      reader != null || available
    }

    /** The next bytes at the offset. An end reported early by a reader is not passed on: the
        next call opens another reader. `available` says whether opening one would succeed, and
        `answer` what an open one reports. */
    method Read(limit: nat, available: bool, answer: Status) returns (p: Bytes, status: Status)
      requires Valid()
      modifies this`offset, this`current, current
      ensures Valid() && |p| <= limit
      ensures offset == old(offset) + |p| && p == data[old(offset)..offset]
      ensures status == EOF <==>
        old(offset) == size || (Reads(old(current), available) && answer == EOF && offset == size)
      ensures status == Failed <==> old(offset) < size && (!Reads(old(current), available) || answer == Failed)
      ensures old(offset) == size || !Reads(old(current), available) ==> p == [] && current == old(current)
      ensures old(offset) < size && Reads(old(current), available) ==> (current == null <==> answer == EOF)
      ensures old(current) != null && current == null ==> old(current).closed
      ensures current != null ==> current == old(current) || (old(current) == null && fresh(current))
    {
      if offset >= size { return [], EOF; }
      if current == null {
        if !available { return [], Failed; }
        current := new Reader(data, offset);
      }
      p, status := current.Read(limit, answer);
      offset := offset + |p|;
      if status == EOF {
        current.Close();
        current := null;
        status := if offset >= size then EOF else More;
      }
    }

    /** A position before the start is refused and changes nothing; one past the end becomes
        the end; the reader is dropped exactly when the offset changes. */
    method Seek(delta: int, whence: Whence) returns (position: Option<nat>)
      requires Valid()
      modifies this`offset, this`current, current
      ensures Valid()
      ensures offset == SeekTo(old(offset), size, delta, whence)
      ensures position == None <==>
        match whence
        case SeekStart => delta < 0
        case SeekCurrent => delta + old(offset) < 0
        case SeekEnd => delta + size < 0
        case Other => true
      ensures position.Some? ==> position.value == offset
      ensures position.Some? && whence == SeekStart ==> offset == if delta > size then size else delta
      ensures position.Some? && whence == SeekCurrent ==>
        offset == if delta > size - old(offset) then size else old(offset) + delta
      ensures position.Some? && whence == SeekEnd ==> offset == if delta > 0 then size else size + delta
      ensures position == None ==> offset == old(offset)
      ensures current == if offset == old(offset) then old(current) else null
      ensures old(current) != null && current == null ==> old(current).closed
    {
      var newOffset: int;
      match whence {
        case SeekStart => newOffset := delta;
        case SeekCurrent => newOffset := offset + delta;
        case SeekEnd => newOffset := size + delta;
        case Other => return None;
      }
      if newOffset < 0 { return None; }
      if newOffset > size { newOffset := size; }
      if current != null && newOffset != offset {
        current.Close();
        current := null;
      }
      offset := newOffset;
      position := Some(offset);
    }

    method Close()
      requires Valid()
      modifies this`current, current
      ensures Valid() && current == null
      ensures old(current) != null ==> old(current).closed
    {
      if current != null {
        current.Close();
        current := null;
      }
    }
  }

  datatype Call = Reading(limit: nat, available: bool, answer: Status) | Seeking(delta: int, whence: Whence) | Closing

  /** The offset after a seek, clamped to the size; unchanged when the seek is refused. */
  function SeekTo(offset: nat, size: nat, delta: int, whence: Whence): nat {
    var target := Target(offset, size, delta, whence);
    if target < 0 then offset else if target > size then size else target
  }

  /** What a call made at offset `before` may give back and where it leaves the offset. */
  predicate Answers(data: Bytes, call: Call, before: nat, after: nat, p: Bytes) {
    && before <= |data| && after <= |data|
    && match call
       case Reading(limit, _, _) => before <= after && p == data[before..after] && |p| <= limit
       case Seeking(delta, whence) => after == SeekTo(before, |data|, delta, whence) && p == []
       case Closing => after == before && p == []
  }

  method Step(rs: ReadSeekCloser, call: Call) returns (p: Bytes)
    requires rs.Valid()
    modifies rs, rs.current
    ensures rs.Valid() && Answers(rs.data, call, old(rs.offset), rs.offset, p)
    ensures rs.current != null ==> rs.current == old(rs.current) || fresh(rs.current)
  {
    p := [];
    match call {
      case Reading(limit, available, answer) =>
        var status;
        p, status := rs.Read(limit, available, answer);
      case Seeking(delta, whence) =>
        var position := rs.Seek(delta, whence);
      case Closing => rs.Close();
    }
  }

  /** A client making any calls at all: each read returns the bytes of the one array at the
      position where the calls before it left off. */
  method Client(data: Bytes, calls: seq<Call>) returns (got: seq<Bytes>, at: seq<nat>)
    ensures |got| == |calls| && |at| == |calls| + 1 && at[0] == 0
    ensures forall k | 0 <= k < |calls| :: Answers(data, calls[k], at[k], at[k + 1], got[k])
  {
    hide Answers;
    var rs := new ReadSeekCloser(data);
    got, at := [], [0];
    for i := 0 to |calls|
      invariant rs.Valid() && rs.data == data && fresh(rs) && (rs.current != null ==> fresh(rs.current))
      invariant |got| == i && |at| == i + 1 && at[0] == 0 && at[i] == rs.offset
      invariant forall k | 0 <= k < i :: Answers(data, calls[k], at[k], at[k + 1], got[k])
    {
      var p := Step(rs, calls[i]);
      got, at := got + [p], at + [rs.offset];
    }
  }

  /** Reads with no seek between them, however short, put together one slice of the data. */
  lemma {:induction false} ReadsAreContiguous(data: Bytes, got: seq<Bytes>, at: seq<nat>)
    requires |at| == |got| + 1 && forall k | 0 <= k < |at| :: at[k] <= |data|
    requires forall k | 0 <= k < |got| :: at[k] <= at[k + 1] && got[k] == data[at[k]..at[k + 1]]
    ensures at[0] <= at[|got|] && Flatten(got) == data[at[0]..at[|got|]]
  {
    if got != [] {
      var n := |got| - 1;
      ReadsAreContiguous(data, got[..n], at[..n + 1]);
      assert data[at[0]..at[n]] + data[at[n]..at[n + 1]] == data[at[0]..at[n + 1]];
    }
  }
}
