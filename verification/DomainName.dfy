/** Recognising host names: RFC 1035, sections 2.3.1 and 2.3.4, with underscores and leading digits also admitted. */
module DomainName {
  import opened Strings

  predicate Letter(c: char) {
    'a' <= c <= 'z' || 'A' <= c <= 'Z' || c == '_'
  }

  predicate Digit(c: char) {
    '0' <= c <= '9'
  }

  predicate LabelChars(l: string) {
    forall k | 0 <= k < |l| :: Letter(l[k]) || Digit(l[k]) || l[k] == '-'
  }

  predicate Label(l: string) {
    1 <= |l| <= 63 && LabelChars(l) && l[0] != '-' && l[|l| - 1] != '-'
  }

  /** Some character is neither a digit nor a separator. */
  predicate NonNumeric(s: string) {
    exists k | 0 <= k < |s| :: !Digit(s[k]) && s[k] != '.'
  }

  /** The grammar: labels joined by dots, with an optional final dot that the length limit does not count. */
  ghost predicate Spells(labels: seq<string>, s: string) {
    && labels != []
    && (forall k | 0 <= k < |labels| :: Label(labels[k]))
    && (s == Join(labels, '.') || s == Join(labels, '.') + ".")
    && |Join(labels, '.')| <= 253
    && NonNumeric(s)
  }

  ghost predicate DomainName(s: string) {
    exists labels :: Spells(labels, s)
  }

  /** The same language read off the parts of s. */
  predicate Accepts(s: string) {
    var parts := Split(s, '.');
    var n := |parts| - 1;
    && 0 < |s| && (|s| <= 253 || (|s| == 254 && s[253] == '.'))
    && (forall k | 0 <= k < n :: Label(parts[k]))
    && (Label(parts[n]) || (parts[n] == "" && n > 0))
    && NonNumeric(s)
  }

  lemma LabelsSeparated(labels: seq<string>)
    requires forall k | 0 <= k < |labels| :: Label(labels[k])
    ensures Separated(labels, '.')
  {
    forall k | 0 <= k < |labels| ensures '.' !in labels[k] { assert Label(labels[k]); }
  }

  lemma AcceptsGrammar(s: string)
    ensures Accepts(s) <==> DomainName(s)
  {
    hide Split, Join, NonNumeric, LabelChars;
    if Accepts(s) {
      var parts := Split(s, '.');
      var n := |parts| - 1;
      JoinSplit(s, '.');
      JoinLast(parts, '.');
      if Label(parts[n]) {
        assert s[|s| - 1] == parts[n][|parts[n]| - 1];
        LabelsSeparated([parts[n]]);
        assert '.' !in [parts[n]][0];
        assert Spells(parts, s);
      } else {
        assert s == Join(parts[..n], '.') + ".";
        assert Spells(parts[..n], s);
      }
    }
    if DomainName(s) {
      var labels :| Spells(labels, s);
      LabelsSeparated(labels);
      SplitJoin(labels, '.');
      SplitSnoc(Join(labels, '.'), '.', '.');
      JoinLast(labels, '.');
      assert Label(labels[|labels| - 1]);
      if s != Join(labels, '.') { assert Split(s, '.') == labels + [""]; }
    }
  }

  /** The scanner's state after reading p: finished labels are good, the open one is good so far. */
  ghost predicate Scanned(p: string, last: char, nonNumeric: bool, partlen: int) {
    var parts := Split(p, '.');
    var n := |parts| - 1;
    && (forall k | 0 <= k < n :: Label(parts[k]))
    && LabelChars(parts[n]) && (parts[n] != "" ==> parts[n][0] != '-')
    && partlen == |parts[n]|
    && (n == 0 ==> parts[n] == p)
    && last == (if parts[n] == "" then '.' else parts[n][partlen - 1])
    && nonNumeric == NonNumeric(p)
  }

  lemma NonNumericSnoc(p: string, c: char)
    ensures NonNumeric(p + [c]) == (NonNumeric(p) || (!Digit(c) && c != '.'))
  {
    var s := p + [c];
    assert s[|p|] == c && forall k | 0 <= k < |p| :: s[k] == p[k];
  }

  lemma ScannedNext(p: string, last: char, nonNumeric: bool, partlen: int, c: char)
    requires Scanned(p, last, nonNumeric, partlen)
    requires Letter(c) || Digit(c) || c == '-' || c == '.'
    requires c == '-' ==> last != '.'
    requires c == '.' ==> last != '.' && last != '-' && 1 <= partlen <= 63
    ensures Scanned(p + [c], c, nonNumeric || Letter(c) || c == '-', if c == '.' then 0 else partlen + 1)
  {
    hide Split, NonNumeric, Join;
    SplitSnoc(p, c, '.');
    NonNumericSnoc(p, c);
  }

  /** A character the scanner refuses spoils every continuation. */
  lemma RefusedForGood(s: string, i: nat, last: char, nonNumeric: bool, partlen: int)
    requires i < |s| && Scanned(s[..i], last, nonNumeric, partlen)
    requires !(Letter(s[i]) || Digit(s[i]) || s[i] == '-' || s[i] == '.')
      || (s[i] == '-' && last == '.')
      || (s[i] == '.' && (last == '.' || last == '-' || partlen > 63 || partlen == 0))
    ensures !Accepts(s)
  {
    hide Split, NonNumeric, Join;
    var parts := Split(s[..i], '.');
    var n := |parts| - 1;
    assert s[..i + 1] == s[..i] + [s[i]];
    SplitSnoc(s[..i], s[i], '.');
    var next := Split(s[..i + 1], '.');
    var all := Split(s, '.');
    SplitPrefix(s, i + 1, '.');
    if s[i] == '.' {
      assert next == parts + [""];
      assert all[n] == next[..n + 1][n] == parts[n];
    } else {
      var open := parts[n] + [s[i]];
      assert next == parts[..n] + [open];
      assert open <= all[n];
      assert all[n][|open| - 1] == s[i];
      assert all[n][0] == open[0];
    }
  }

  lemma ScannedStart()
    ensures Scanned("", '.', false, 0)
  {
  }

  /** At the end the scanner's own three tests decide. */
  lemma ScannedAll(s: string, last: char, nonNumeric: bool, partlen: int)
    requires Scanned(s, last, nonNumeric, partlen)
    requires 0 < |s| && (|s| <= 253 || (|s| == 254 && s[253] == '.'))
    ensures Accepts(s) <==> last != '-' && partlen <= 63 && nonNumeric
  {
    hide Split, NonNumeric, LabelChars;
  }

  /** The scanner accepts exactly the grammar. */
  method IsDomainName(s: string) returns (ok: bool)
    ensures ok <==> DomainName(s)
  {
    hide Split, NonNumeric, DomainName;
    AcceptsGrammar(s);
    ScannedStart();
    var l := |s|;
    if l == 0 || l > 254 || (l == 254 && s[l - 1] != '.') {
      return false;
    }
    var last, nonNumeric, partlen := '.', false, 0;
    for i := 0 to |s|
      invariant Scanned(s[..i], last, nonNumeric, partlen)
    {
      var c := s[i];
      ghost var before := (last, nonNumeric, partlen);
      if Letter(c) {
        nonNumeric := true;
        partlen := partlen + 1;
      } else if Digit(c) {
        partlen := partlen + 1;
      } else if c == '-' {
        if last == '.' { RefusedForGood(s, i, last, nonNumeric, partlen); return false; }
        partlen := partlen + 1;
        nonNumeric := true;
      } else if c == '.' {
        if last == '.' || last == '-' { RefusedForGood(s, i, last, nonNumeric, partlen); return false; }
        if partlen > 63 || partlen == 0 { RefusedForGood(s, i, last, nonNumeric, partlen); return false; }
        partlen := 0;
      } else {
        RefusedForGood(s, i, last, nonNumeric, partlen);
        return false;
      }
      last := c;
      ScannedNext(s[..i], before.0, before.1, before.2, c);
      assert s[..i + 1] == s[..i] + [c];
    }
    assert s[..|s|] == s;
    ScannedAll(s, last, nonNumeric, partlen);
    if last == '-' || partlen > 63 {
      return false;
    }
    return nonNumeric;
  }

  predicate HostChar(c: char) {
    Letter(c) || Digit(c) || c == '-' || c == '.'
  }

  lemma {:induction false} JoinCharacters(parts: seq<string>)
    requires forall k | 0 <= k < |parts| :: LabelChars(parts[k])
    ensures forall k | 0 <= k < |Join(parts, '.')| :: HostChar(Join(parts, '.')[k])
  {
    if |parts| > 1 {
      var n := |parts| - 1;
      JoinCharacters(parts[..n]);
      assert LabelChars(parts[n]);
    } else if |parts| == 1 {
      assert LabelChars(parts[0]);
    }
  }

  /** Host names never contain the separators of routes and queue contents. */
  lemma HostCharacters(s: string)
    requires Accepts(s)
    ensures forall k | 0 <= k < |s| :: HostChar(s[k])
  {
    hide Split, Join, NonNumeric;
    JoinSplit(s, '.');
    JoinCharacters(Split(s, '.'));
  }

  /** A name without dots is 1 to 63 letters, digits, underscores and hyphens, not all of them
      digits, with no hyphen at either end. */
  lemma UndottedName(s: string)
    requires '.' !in s
    ensures
      DomainName(s) <==>
      && 1 <= |s| <= 63 && s[0] != '-' && s[|s| - 1] != '-'
      && (forall k | 0 <= k < |s| ::
          'a' <= s[k] <= 'z' || 'A' <= s[k] <= 'Z' || '0' <= s[k] <= '9' || s[k] == '_' || s[k] == '-')
      && (exists k | 0 <= k < |s| :: !('0' <= s[k] <= '9'))
  {
    hide Split, DomainName;
    AcceptsGrammar(s);
    SplitSingle(s, '.');
    assert forall k | 0 <= k < |s| :: s[k] != '.';
  }

  lemma JoinedNonNumeric(a: string, b: string)
    requires NonNumeric(a)
    ensures NonNumeric(a + ['.'] + b)
  {
    var k :| 0 <= k < |a| && !Digit(a[k]) && a[k] != '.';
    assert (a + ['.'] + b)[k] == a[k];
  }

  lemma LastLabel(s: string)
    requires s != "" && s[|s| - 1] != '.'
    ensures Split(s, '.')[|Split(s, '.')| - 1] != ""
  {
  }

  /** Two names joined by a dot are a name exactly within 253 characters, a final dot not counted. */
  lemma JoinedNames(a: string, b: string)
    requires DomainName(a) && DomainName(b) && a[|a| - 1] != '.'
    ensures
      DomainName(a + "." + b) <==> |a| + 1 + |b| <= if b[|b| - 1] == '.' then 254 else 253
  {
    hide Split, Join, DomainName, Label, NonNumeric;
    var s := a + ['.'] + b;
    AcceptsGrammar(a);
    AcceptsGrammar(b);
    AcceptsGrammar(s);
    assert a + "." + b == s;
    SplitConcat(a, b, '.');
    JoinedNonNumeric(a, b);
    assert s[|s| - 1] == b[|b| - 1];
    var x, y := Split(a, '.'), Split(b, '.');
    LastLabel(a);
    forall k | 0 <= k < |x| ensures Label(Split(s, '.')[k]) { assert Label(x[k]); }
    forall k | |x| <= k < |x| + |y| - 1 ensures Label(Split(s, '.')[k]) { assert Label(y[k - |x|]); }
  }

  /** One final dot may follow every name that does not end in one, and no other string. */
  lemma FinalDot(s: string)
    ensures DomainName(s + ".") <==> DomainName(s) && s[|s| - 1] != '.'
  {
    hide Split, Join, Label, NonNumeric, DomainName;
    AcceptsGrammar(s);
    AcceptsGrammar(s + ['.']);
    assert s + "." == s + ['.'];
    SplitSnoc(s, '.', '.');
    NonNumericSnoc(s, '.');
    EndsInDot(s);
    EmptyIsNoLabel();
    var parts, next := Split(s, '.'), Split(s + ['.'], '.');
    assert next == parts + [""];
    assert forall k | 0 <= k < |parts| :: next[k] == parts[k];
    if Accepts(s + ['.']) { assert Label(next[|parts| - 1]); }
  }

  lemma EmptyIsNoLabel()
    ensures !Label("")
  {
  }

  lemma EndsInDot(s: string)
    ensures var parts := Split(s, '.'); parts[|parts| - 1] == "" <==> s == "" || s[|s| - 1] == '.'
  {
  }
}
