/** The parts of Go's `strings` package that the name and route parsers use. */
module Strings {
  import opened Collections

  /** What marks a content digest. */
  const DIGEST_PREFIX := "sha256:"

  /** The position of the first `c`, or -1. */
  function IndexOf(s: string, c: char): (i: int)
    ensures -1 <= i < |s|
    ensures i == -1 <==> c !in s
    ensures i >= 0 ==> s[i] == c && c !in s[..i]
  {
    if s == "" then -1
    else if s[0] == c then 0
    else
      var i := IndexOf(s[1..], c);
      assert s == [s[0]] + s[1..];
      if i < 0 then -1 else
      assert s[..i + 1] == [s[0]] + s[1..][..i];
      i + 1
  }

  predicate HasPrefix(s: string, prefix: string) {
    prefix <= s
  }

  function TrimPrefix(s: string, prefix: string): string {
    if HasPrefix(s, prefix) then s[|prefix|..] else s
  }

  /** The parts after one more character has been read. */
  function Extend(parts: seq<string>, c: char, sep: char): (next: seq<string>)
    requires |parts| >= 1
    ensures |next| >= 1
  {
    if c == sep then parts + [""] else parts[..|parts| - 1] + [parts[|parts| - 1] + [c]]
  }

  /** The parts of s between separators; never empty, and [""] for the empty string. */
  function Split(s: string, sep: char): (parts: seq<string>)
    ensures |parts| >= 1
  {
    if s == "" then [""] else Extend(Split(s[..|s| - 1], sep), s[|s| - 1], sep)
  }

  lemma SplitSnoc(s: string, c: char, sep: char)
    ensures Split(s + [c], sep) == Extend(Split(s, sep), c, sep)
  {
    assert (s + [c])[..|s|] == s;
  }

  function Join(parts: seq<string>, sep: char): string {
    if parts == [] then ""
    else if |parts| == 1 then parts[0]
    else Join(parts[..|parts| - 1], sep) + [sep] + parts[|parts| - 1]
  }

  predicate Separated(parts: seq<string>, sep: char) {
    forall k | 0 <= k < |parts| :: sep !in parts[k]
  }

  lemma ExtendConcat(a: seq<string>, b: seq<string>, c: char, sep: char)
    requires |b| >= 1
    ensures Extend(a + b, c, sep) == a + Extend(b, c, sep)
  {
    assert (a + b)[..|a + b| - 1] == a + b[..|b| - 1];
  }

  lemma {:induction false} SplitConcat(a: string, b: string, sep: char)
    ensures Split(a + [sep] + b, sep) == Split(a, sep) + Split(b, sep)
    decreases |b|
  {
    if b == "" {
      assert a + [sep] + b == a + [sep];
      SplitSnoc(a, sep, sep);
    } else {
      hide Split, Extend;
      var b', c := b[..|b| - 1], b[|b| - 1];
      SplitConcat(a, b', sep);
      assert a + [sep] + b == (a + [sep] + b') + [c] && b == b' + [c];
      SplitSnoc(a + [sep] + b', c, sep);
      SplitSnoc(b', c, sep);
      ExtendConcat(Split(a, sep), Split(b', sep), c, sep);
    }
  }

  lemma {:induction false} SplitSingle(s: string, sep: char)
    requires sep !in s
    ensures Split(s, sep) == [s]
  {
    if s != "" { SplitSingle(s[..|s| - 1], sep); assert s == s[..|s| - 1] + [s[|s| - 1]]; }
  }

  lemma JoinLast(parts: seq<string>, sep: char)
    requires |parts| >= 1
    ensures
      var n := |parts| - 1;
      Join(parts, sep) == if n == 0 then parts[0] else Join(parts[..n], sep) + [sep] + parts[n]
  {
  }

  lemma JoinExtend(parts: seq<string>, c: char, sep: char)
    requires |parts| >= 1 && Separated(parts, sep)
    ensures Join(Extend(parts, c, sep), sep) == Join(parts, sep) + [c]
    ensures Separated(Extend(parts, c, sep), sep)
  {
    hide Join;
    var n := |parts| - 1;
    var next := Extend(parts, c, sep);
    JoinLast(parts, sep);
    JoinLast(next, sep);
    if c == sep {
      assert next[..n + 1] == parts;
    } else {
      assert next[..n] == parts[..n] && next[n] == parts[n] + [c];
      if n > 0 { assert Join(parts[..n], sep) + [sep] + next[n] == Join(parts, sep) + [c]; }
    }
  }

  /** Joining the parts gives the string back. */
  lemma {:induction false} JoinSplit(s: string, sep: char)
    ensures Join(Split(s, sep), sep) == s && Separated(Split(s, sep), sep)
  {
    if s != "" {
      hide Extend, Join, Separated;
      var t, c := s[..|s| - 1], s[|s| - 1];
      JoinSplit(t, sep);
      JoinExtend(Split(t, sep), c, sep);
      assert s == t + [c];
    }
  }

  /** Split undoes Join on parts free of the separator. */
  lemma {:induction false} SplitJoin(parts: seq<string>, sep: char)
    requires |parts| >= 1 && Separated(parts, sep)
    ensures Split(Join(parts, sep), sep) == parts
  {
    hide Split;
    var n := |parts| - 1;
    SplitSingle(parts[n], sep);
    if n > 0 {
      SplitJoin(parts[..n], sep);
      SplitConcat(Join(parts[..n], sep), parts[n], sep);
    }
  }

  lemma {:induction false} JoinConcat(a: seq<string>, b: seq<string>, sep: char)
    requires a != [] && b != []
    ensures Join(a + b, sep) == Join(a, sep) + [sep] + Join(b, sep)
    decreases |b|
  {
    var n := |b| - 1;
    assert (a + b)[..|a| + n] == a + b[..n];
    if n == 0 { assert a + b[..n] == a; } else { JoinConcat(a, b[..n], sep); }
  }

  /** q goes on where p stops: p's parts are final, except that the last may still grow. */
  ghost predicate Continues(p: seq<string>, q: seq<string>)
    requires |p| >= 1
  {
    |p| <= |q| && p[..|p| - 1] == q[..|p| - 1] && p[|p| - 1] <= q[|p| - 1]
  }

  lemma ContinuesExtend(p: seq<string>, q: seq<string>, c: char, sep: char)
    requires |p| >= 1 && Continues(p, q)
    ensures Continues(p, Extend(q, c, sep))
  {
    var r := Extend(q, c, sep);
    assert r[..|q| - 1] == q[..|q| - 1];
    assert r[..|p| - 1] == q[..|q| - 1][..|p| - 1];
    if |p| < |q| { assert r[|p| - 1] == q[..|q| - 1][|p| - 1]; }
  }

  lemma {:induction false} SplitPrefix(s: string, i: nat, sep: char)
    requires i <= |s|
    ensures Continues(Split(s[..i], sep), Split(s, sep))
  {
    if i == |s| {
      assert s[..i] == s;
    } else {
      hide Split, Extend, Continues;
      var t, c := s[..|s| - 1], s[|s| - 1];
      SplitPrefix(t, i, sep);
      assert t[..i] == s[..i] && s == t + [c];
      SplitSnoc(t, c, sep);
      ContinuesExtend(Split(t[..i], sep), Split(t, sep), c, sep);
    }
  }
}
