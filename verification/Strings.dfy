/** The string operations of Go's standard library that the modelled code calls.
    Bytes are characters here: no operation below looks inside an encoding. */
module Strings {

  predicate HasPrefix(s: string, p: string) {
    p <= s
  }

  predicate HasSuffix(s: string, p: string) {
    |p| <= |s| && s[|s| - |p|..] == p
  }

  predicate OccursAt(s: string, p: string, i: int) {
    0 <= i <= |s| - |p| && s[i..i + |p|] == p
  }

  /** The leftmost position of `p` in `s` at or after `from`, or -1. */
  function IndexFrom(s: string, p: string, from: nat): (r: int)
    requires from <= |s|
    ensures r == -1 <==> forall i :: from <= i ==> !OccursAt(s, p, i)
    ensures r != -1 ==> from <= r && OccursAt(s, p, r) && forall i :: from <= i < r ==> !OccursAt(s, p, i)
    decreases |s| - from
  {
    if OccursAt(s, p, from) then from
    else if from == |s| then -1
    else IndexFrom(s, p, from + 1)
  }

  function Index(s: string, p: string): (r: int)
    ensures r == -1 <==> forall i :: !OccursAt(s, p, i)
    ensures r != -1 ==> OccursAt(s, p, r) && forall i :: 0 <= i < r ==> !OccursAt(s, p, i)
  {
    var r := IndexFrom(s, p, 0);
    assert r == -1 ==> forall i :: i < 0 ==> !OccursAt(s, p, i);
    r
  }

  predicate Contains(s: string, p: string) {
    Index(s, p) != -1
  }

  /** strings.Split on a one-character separator: always at least one part. */
  function Split(s: string, sep: char): (parts: seq<string>)
    ensures |parts| >= 1
    ensures forall p :: p in parts ==> sep !in p
  {
    if s == "" then [""]
    else
      var rest := Split(s[1..], sep);
      if s[0] == sep then [""] + rest else [[s[0]] + rest[0]] + rest[1..]
  }

  /** strings.Join with a one-character separator. */
  function Join(parts: seq<string>, sep: char): string
    requires |parts| >= 1
  {
    if |parts| == 1 then parts[0]
    else parts[0] + [sep] + Join(parts[1..], sep)
  }

  /** Splitting loses nothing: joining the parts gives the string back. */
  lemma {:induction false} JoinSplit(s: string, sep: char)
    ensures Join(Split(s, sep), sep) == s
  {
    if s != "" {
      var rest := Split(s[1..], sep);
      JoinSplit(s[1..], sep);
      if s[0] == sep {
        assert ([""] + rest)[1..] == rest;
      } else {
        var longer := [[s[0]] + rest[0]] + rest[1..];
        assert |rest| > 1 ==> longer[1..] == rest[1..];
      }
    }
  }

  /** bytes.TrimRight with the given cutset. */
  function TrimRight(s: string, cutset: string): (r: string)
    ensures r <= s
    ensures r == "" || r[|r| - 1] !in cutset
    ensures forall i :: |r| <= i < |s| ==> s[i] in cutset
  {
    if s == "" || s[|s| - 1] !in cutset then s
    else TrimRight(s[..|s| - 1], cutset)
  }

  function TrimLeft(s: string, cutset: string): (r: string)
    ensures |r| <= |s| && r == s[|s| - |r|..]
    ensures r == "" || r[0] !in cutset
  {
    if s == "" || s[0] !in cutset then s
    else TrimLeft(s[1..], cutset)
  }

  /** What strings.TrimSpace takes for white space: Unicode's White_Space property. */
  const WHITE_SPACE: string :=
    "\t\n\U{B}\U{C}\r \U{85}\U{A0}\U{1680}\U{2000}\U{2001}\U{2002}\U{2003}\U{2004}\U{2005}\U{2006}" +
    "\U{2007}\U{2008}\U{2009}\U{200A}\U{2028}\U{2029}\U{202F}\U{205F}\U{3000}"

  function Trim(s: string, cutset: string): string {
    TrimRight(TrimLeft(s, cutset), cutset)
  }

  /** strings.TrimSpace. */
  function TrimSpace(s: string): string {
    Trim(s, WHITE_SPACE)
  }

  lemma {:induction false} LeftCut(a: string, rest: string, cutset: string)
    requires forall c :: c in a ==> c in cutset
    ensures TrimLeft(a + rest, cutset) == TrimLeft(rest, cutset)
  {
    if a == "" {
      assert a + rest == rest;
    } else {
      var s := a + rest;
      assert s[0] == a[0] && a[0] in a && s[1..] == a[1..] + rest;
      assert TrimLeft(s, cutset) == TrimLeft(s[1..], cutset);
      LeftCut(a[1..], rest, cutset);
    }
  }

  lemma {:induction false} RightCut(t: string, b: string, cutset: string)
    requires forall c :: c in b ==> c in cutset
    ensures TrimRight(t + b, cutset) == TrimRight(t, cutset)
  {
    if b == "" {
      assert t + b == t;
    } else {
      var n := |b| - 1;
      assert b[n] in b;
      RightCut(t, b[..n], cutset);
      assert (t + b)[..|t| + n] == t + b[..n];
    }
  }

  /** The ends that lie in the cutset go, whatever they are; the rest stays. */
  lemma TrimCutsEnds(a: string, t: string, b: string, cutset: string)
    requires forall c :: c in a || c in b ==> c in cutset
    requires t == "" || (t[0] !in cutset && t[|t| - 1] !in cutset)
    ensures Trim(a + t + b, cutset) == t
  {
    assert a + t + b == a + (t + b);
    LeftCut(a, t + b, cutset);
    TrimKeepsStart(t, b, cutset);
  }

  lemma TrimKeepsStart(t: string, b: string, cutset: string)
    requires forall c :: c in b ==> c in cutset
    requires t == "" || (t[0] !in cutset && t[|t| - 1] !in cutset)
    ensures Trim(t + b, cutset) == t
  {
    if t == "" {
      assert t + b == b + "";
      LeftCut(b, "", cutset);
    } else {
      assert TrimLeft(t + b, cutset) == t + b;
      RightCut(t, b, cutset);
    }
  }

  lemma TrimIdempotent(s: string, cutset: string)
    ensures Trim(Trim(s, cutset), cutset) == Trim(s, cutset)
  {
    var l := TrimLeft(s, cutset);
    var t := Trim(s, cutset);
    if t != "" {
      assert t[0] == l[0];
    }
  }

  lemma {:induction false} TrimSpaceIdempotent(s: string)
    ensures TrimSpace(TrimSpace(s)) == TrimSpace(s)
  {
    TrimIdempotent(s, WHITE_SPACE);
  }

  /** Nothing is cut off a text of two characters outside the cutset. */
  lemma TrimPair(s: string, cutset: string)
    requires |s| == 2 && s[0] !in cutset && s[1] !in cutset
    ensures Trim(s, cutset) == s
  {
    assert TrimLeft(s, cutset) == s;
    assert TrimRight(s, cutset) == s;
  }

  lemma TrimSpaceBraces()
    ensures TrimSpace("{}") == "{}"
  {
    TrimPair("{}", WHITE_SPACE);
  }

  /** The concatenation of a list of strings: what a Go string builder holds after writing them in order. */
  function Concat(ss: seq<string>): string {
    if ss == [] then "" else ss[0] + Concat(ss[1..])
  }

  /** Go's `<` on strings: lexicographic order. */
  predicate Less(a: string, b: string) {
    if b == "" then false
    else if a == "" then true
    else if a[0] != b[0] then a[0] < b[0]
    else Less(a[1..], b[1..])
  }

  /** They agree up to some place, where the first ends or has the smaller character. */
  predicate SmallerAt(a: string, b: string, n: nat) {
    n <= |a| && n < |b| && a[..n] == b[..n] && (n == |a| || a[n] < b[n])
  }

  lemma SameStart(a: string, b: string, n: nat)
    requires SmallerAt(a, b, n) && n > 0
    ensures a[0] == b[0]
  {
    assert a[..n][0] == b[..n][0];
  }

  lemma {:induction false} LessMeaning(a: string, b: string)
    ensures Less(a, b) <==> exists n: nat :: SmallerAt(a, b, n)
  {
    if a == "" || b == "" || a[0] != b[0] {
      if Less(a, b) {
        assert SmallerAt(a, b, 0);
      }
      if n: nat :| SmallerAt(a, b, n) && n > 0 {
        SameStart(a, b, n);
      }
    } else {
      LessMeaning(a[1..], b[1..]);
      if Less(a, b) {
        var n: nat :| SmallerAt(a[1..], b[1..], n);
        assert a[..n + 1] == [a[0]] + a[1..][..n] && b[..n + 1] == [b[0]] + b[1..][..n];
        assert SmallerAt(a, b, n + 1);
      }
      if n: nat :| SmallerAt(a, b, n) {
        assert n > 0;
        assert a[1..][..n - 1] == a[..n][1..] && b[1..][..n - 1] == b[..n][1..];
        assert SmallerAt(a[1..], b[1..], n - 1);
      }
    }
  }
}
