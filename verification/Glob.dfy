/** internal/glob/glob.go: the '*' wildcard matcher. */
module Glob {
  import opened Strings

  /** The number of wildcards in a pattern. */
  function Stars(pattern: string): nat {
    if pattern == "" then 0 else (if pattern[0] == '*' then 1 else 0) + Stars(pattern[1..])
  }

  /** The string a pattern denotes once every '*' is replaced by its own string, in order. */
  function Fill(pattern: string, runs: seq<string>): string
    requires |runs| == Stars(pattern)
  {
    if pattern == "" then ""
    else if pattern[0] == '*' then runs[0] + Fill(pattern[1..], runs[1..])
    else [pattern[0]] + Fill(pattern[1..], runs)
  }

  ghost predicate FillsTo(pattern: string, runs: seq<string>, s: string) {
    |runs| == Stars(pattern) && Fill(pattern, runs) == s
  }

  /** The declarative meaning: some choice of a run for every '*' turns the pattern into `s`. */
  ghost predicate Denotes(pattern: string, s: string) {
    exists runs :: FillsTo(pattern, runs, s)
  }

  /** What remains to be matched after a star: the parts, each behind an arbitrary run. */
  ghost predicate Remaining(parts: seq<string>, s: string)
    requires |parts| >= 1
  {
    if |parts| == 1 then HasSuffix(s, parts[0])
    else exists i :: OccursAt(s, parts[0], i) && Remaining(parts[1..], s[i + |parts[0]|..])
  }

  /** The exchange argument: whatever a suffix of `s` matches, `s` matches too. */
  lemma {:induction false} RemainingWeakens(parts: seq<string>, s: string, k: nat)
    requires |parts| >= 1 && k <= |s|
    requires Remaining(parts, s[k..])
    ensures Remaining(parts, s)
  {
    var t := s[k..];
    if |parts| == 1 {
      assert s[|s| - |parts[0]|..] == t[|t| - |parts[0]|..];
    } else {
      var n := |parts[0]|;
      var i :| OccursAt(t, parts[0], i) && Remaining(parts[1..], t[i + n..]);
      assert s[k + i..k + i + n] == t[i..i + n];
      assert s[k + i + n..] == t[i + n..];
      assert OccursAt(s, parts[0], k + i);
    }
  }

  /** Taking the leftmost occurrence loses no match. */
  lemma LeftmostSuffices(parts: seq<string>, s: string, first: int)
    requires |parts| >= 2
    requires OccursAt(s, parts[0], first) && forall i :: 0 <= i < first ==> !OccursAt(s, parts[0], i)
    ensures Remaining(parts, s) <==> Remaining(parts[1..], s[first + |parts[0]|..])
  {
    var n := |parts[0]|;
    if Remaining(parts, s) {
      var i :| OccursAt(s, parts[0], i) && Remaining(parts[1..], s[i + n..]);
      assert first <= i;
      assert s[i + n..] == s[first + n..][i - first..];
      RemainingWeakens(parts[1..], s[first + n..], i - first);
    }
  }

  lemma MiddlePart(parts: seq<string>, k: nat, s: string)
    requires k + 1 < |parts|
    ensures
      var i := Index(s, parts[k]);
      Remaining(parts[k..], s) <==> i >= 0 && Remaining(parts[k + 1..], s[i + |parts[k]|..])
  {
    assert parts[k..][0] == parts[k] && parts[k..][1..] == parts[k + 1..];
    if Index(s, parts[k]) >= 0 {
      LeftmostSuffices(parts[k..], s, Index(s, parts[k]));
    }
  }

  /** A pattern in parts: the first is anchored at the start, the others follow a star each. */
  ghost predicate PartsMatch(parts: seq<string>, s: string)
    requires |parts| >= 1
  {
    if |parts| == 1 then s == parts[0]
    else HasPrefix(s, parts[0]) && Remaining(parts[1..], s[|parts[0]|..])
  }

  lemma RemainingNeedsRun(parts: seq<string>, s: string, i: nat)
    requires |parts| >= 1 && i <= |s|
    requires PartsMatch(parts, s[i..])
    ensures Remaining(parts, s)
  {
    var t := s[i..];
    if |parts| == 1 {
    } else {
      assert t[..|parts[0]|] == s[i..i + |parts[0]|];
      assert OccursAt(s, parts[0], i);
      assert s[i + |parts[0]|..] == t[|parts[0]|..];
    }
  }

  lemma RemainingHasRun(parts: seq<string>, s: string) returns (i: nat)
    requires |parts| >= 1
    requires Remaining(parts, s)
    ensures i <= |s| && PartsMatch(parts, s[i..])
  {
    if |parts| == 1 {
      i := |s| - |parts[0]|;
    } else {
      var n := |parts[0]|;
      i :| OccursAt(s, parts[0], i) && Remaining(parts[1..], s[i + n..]);
      var t := s[i..];
      assert t[..n] == s[i..i + n];
      assert t[n..] == s[i + n..];
    }
  }

  /** The rest of the pattern means what its parts mean. */
  ghost predicate RestMeans(pattern: string)
    requires pattern != ""
  {
    forall t :: PartsMatch(Split(pattern[1..], '*'), t) <==> Denotes(pattern[1..], t)
  }

  lemma StarDenotes(pattern: string, s: string)
    requires pattern != "" && pattern[0] == '*' && RestMeans(pattern)
    requires Remaining(Split(pattern[1..], '*'), s)
    ensures Denotes(pattern, s)
  {
    var rest := Split(pattern[1..], '*');
    var i := RemainingHasRun(rest, s);
    assert PartsMatch(rest, s[i..]) <==> Denotes(pattern[1..], s[i..]);
    var runs :| FillsTo(pattern[1..], runs, s[i..]);
    assert ([s[..i]] + runs)[1..] == runs;
    assert FillsTo(pattern, [s[..i]] + runs, s);
  }

  lemma DenotedRemains(pattern: string, s: string)
    requires pattern != "" && pattern[0] == '*' && RestMeans(pattern)
    requires Denotes(pattern, s)
    ensures Remaining(Split(pattern[1..], '*'), s)
  {
    var rest := Split(pattern[1..], '*');
    var runs :| FillsTo(pattern, runs, s);
    var i := |runs[0]|;
    assert s[i..] == Fill(pattern[1..], runs[1..]);
    assert FillsTo(pattern[1..], runs[1..], s[i..]);
    assert PartsMatch(rest, s[i..]) <==> Denotes(pattern[1..], s[i..]);
    RemainingNeedsRun(rest, s, i);
  }

  lemma StarMeaning(pattern: string, s: string)
    requires pattern != "" && pattern[0] == '*' && RestMeans(pattern)
    ensures PartsMatch(Split(pattern, '*'), s) <==> Denotes(pattern, s)
  {
    var parts := Split(pattern, '*');
    assert parts[1..] == Split(pattern[1..], '*') && parts[0] == "" && s[0..] == s;
    assert PartsMatch(parts, s) <==> Remaining(parts[1..], s);
    if PartsMatch(parts, s) {
      StarDenotes(pattern, s);
    } else if Denotes(pattern, s) {
      DenotedRemains(pattern, s);
    }
  }

  lemma LiteralMeaning(pattern: string, s: string)
    requires pattern != "" && pattern[0] != '*' && RestMeans(pattern)
    ensures PartsMatch(Split(pattern, '*'), s) <==> Denotes(pattern, s)
  {
    PrependLiteral(pattern[0], Split(pattern[1..], '*'), s);
    if s != "" && s[0] == pattern[0] {
      assert PartsMatch(Split(pattern[1..], '*'), s[1..]) <==> Denotes(pattern[1..], s[1..]);
      if Denotes(pattern[1..], s[1..]) {
        var runs :| FillsTo(pattern[1..], runs, s[1..]);
        assert FillsTo(pattern, runs, s);
      }
    }
    if Denotes(pattern, s) {
      var runs :| FillsTo(pattern, runs, s);
      assert s[1..] == Fill(pattern[1..], runs);
      assert FillsTo(pattern[1..], runs, s[1..]);
    }
  }

  /** Splitting at the stars keeps the meaning. */
  lemma {:induction false} SplitMeaning(pattern: string, s: string)
    ensures PartsMatch(Split(pattern, '*'), s) <==> Denotes(pattern, s)
    decreases |pattern|
  {
    if pattern == "" {
      assert FillsTo("", [], "");
    } else {
      forall t ensures PartsMatch(Split(pattern[1..], '*'), t) <==> Denotes(pattern[1..], t) {
        SplitMeaning(pattern[1..], t);
      }
      if pattern[0] == '*' {
        StarMeaning(pattern, s);
      } else {
        LiteralMeaning(pattern, s);
      }
    }
  }

  lemma PrependLiteral(c: char, parts: seq<string>, s: string)
    requires |parts| >= 1
    ensures PartsMatch([[c] + parts[0]] + parts[1..], s) <==> s != "" && s[0] == c && PartsMatch(parts, s[1..])
  {
    var longer := [[c] + parts[0]] + parts[1..];
    assert longer[1..] == parts[1..];
    if s != "" && s[0] == c {
      assert s == [c] + s[1..];
      if |parts| > 1 && HasPrefix(s[1..], parts[0]) {
        assert s[1 + |parts[0]|..] == s[1..][|parts[0]|..];
      }
      if |parts| > 1 && HasPrefix(s, longer[0]) {
        assert s[1..][..|parts[0]|] == s[..|longer[0]|][1..];
      }
    }
  }

  /** Match, with the loop of the source: a nonempty pattern matches exactly what it denotes. */
  method Match(pattern: string, s: string) returns (matched: bool)
    ensures matched <==> pattern != "" && Denotes(pattern, s)
  {
    if pattern == "" {
      return false;
    }
    SplitMeaning(pattern, s);
    var parts := Split(pattern, '*');
    if pattern == "*" {
      LoneStar(s);
      return true;
    }
    if !Contains(pattern, "*") {
      NoStarNoSplit(pattern);
      return pattern == s;
    }
    StarSplits(pattern);
    if !HasPrefix(s, parts[0]) {
      return false;
    }
    var rest := s[|parts[0]|..];
    var k := 1;
    while k < |parts| - 1
      invariant 1 <= k < |parts|
      invariant Denotes(pattern, s) <==> Remaining(parts[k..], rest)
    {
      var p := parts[k];
      var idx := Index(rest, p);
      MiddlePart(parts, k, rest);
      if idx < 0 {
        return false;
      }
      rest := rest[idx + |p|..];
      k := k + 1;
    }
    assert parts[k..] == [parts[|parts| - 1]];
    return HasSuffix(rest, parts[|parts| - 1]);
  }

  lemma LoneStar(s: string)
    ensures Denotes("*", s)
  {
    assert Fill("*"[1..], [s][1..]) == "";
    assert FillsTo("*", [s], s);
  }

  lemma {:induction false} NoStarNoSplit(pattern: string)
    requires !Contains(pattern, "*")
    ensures Split(pattern, '*') == [pattern]
  {
    if pattern != "" {
      assert !OccursAt(pattern, "*", 0) && pattern[0..1] == [pattern[0]];
      forall i ensures !OccursAt(pattern[1..], "*", i) {
        if OccursAt(pattern[1..], "*", i) {
          assert pattern[i + 1..i + 2] == pattern[1..][i..i + 1];
          assert OccursAt(pattern, "*", i + 1);
        }
      }
      NoStarNoSplit(pattern[1..]);
      assert [pattern[0]] + pattern[1..] == pattern;
    }
  }

  lemma StarSplits(pattern: string)
    requires Contains(pattern, "*")
    ensures |Split(pattern, '*')| >= 2
  {
    var i := Index(pattern, "*");
    assert pattern[i..i + 1][0] == '*';
    JoinSplit(pattern, '*');
    assert Split(pattern, '*')[0] in Split(pattern, '*');
  }

  /** A star-free pattern denotes itself alone, so an exact name is never a wildcard. */
  lemma {:induction false} StarFreeIsExact(pattern: string, s: string)
    requires !Contains(pattern, "*")
    ensures Denotes(pattern, s) <==> s == pattern
  {
    SplitMeaning(pattern, s);
    NoStarNoSplit(pattern);
  }
}
