/** Go's sort.Strings, sort.Slice and sort.SliceStable, as one insertion sort: callers rely on the result alone. */
module Sorting {
  import opened Strings

  // ---- sorting by a comparison ----

  /** A comparison that sorts: no cycles, and not being before is transitive. */
  ghost predicate WeakOrder<T(!new)>(before: (T, T) -> bool) {
    && (forall a, b :: before(a, b) ==> !before(b, a))
    && (forall a, b, c :: !before(b, a) && !before(c, b) ==> !before(c, a))
  }

  predicate SortedBy<T>(before: (T, T) -> bool, xs: seq<T>) {
    forall i, j :: 0 <= i < j < |xs| ==> !before(xs[j], xs[i])
  }

  lemma FirstStays<T(!new)>(before: (T, T) -> bool, x: T, xs: seq<T>)
    requires WeakOrder(before) && SortedBy(before, xs) && xs != [] && !before(xs[0], x)
    ensures SortedBy(before, [x] + xs)
  {
    var r := [x] + xs;
    forall i, j | 0 <= i < j < |r| ensures !before(r[j], r[i]) {
      if i == 0 && j > 1 {
        assert !before(xs[j - 1], xs[0]);
      }
    }
  }

  lemma LaterStays<T(!new)>(before: (T, T) -> bool, x: T, xs: seq<T>, rest: seq<T>)
    requires WeakOrder(before) && SortedBy(before, xs) && xs != [] && before(xs[0], x)
    requires SortedBy(before, rest) && multiset(rest) == multiset(xs[1..]) + multiset{x}
    ensures SortedBy(before, [xs[0]] + rest)
  {
    forall j | 0 <= j < |rest| ensures !before(rest[j], xs[0]) {
      assert rest[j] in multiset(rest);
      if rest[j] != x {
        assert rest[j] in xs[1..];
        var k :| 0 <= k < |xs[1..]| && xs[1..][k] == rest[j];
        assert !before(xs[k + 1], xs[0]);
      }
    }
  }

  function Insert<T(!new)>(before: (T, T) -> bool, x: T, xs: seq<T>): (r: seq<T>)
    requires WeakOrder(before) && SortedBy(before, xs)
    ensures SortedBy(before, r)
    ensures multiset(r) == multiset(xs) + multiset{x}
  {
    if xs == [] then [x]
    else
      assert xs == [xs[0]] + xs[1..];
      if !before(xs[0], x) then
        FirstStays(before, x, xs);
        [x] + xs
      else
        var rest := Insert(before, x, xs[1..]);
        LaterStays(before, x, xs, rest);
        [xs[0]] + rest
  }

  function Sort<T(!new)>(before: (T, T) -> bool, xs: seq<T>): (r: seq<T>)
    requires WeakOrder(before)
    ensures SortedBy(before, r)
    ensures multiset(r) == multiset(xs)
  {
    if xs == [] then []
    else
      assert xs == [xs[0]] + xs[1..];
      Insert(before, xs[0], Sort(before, xs[1..]))
  }

  // ---- strings ----

  predicate LessEq(a: string, b: string) {
    a == b || Less(a, b)
  }

  lemma {:induction false} LessTotal(a: string, b: string)
    ensures Less(a, b) || a == b || Less(b, a)
    ensures !(Less(a, b) && Less(b, a)) && !(a == b && Less(a, b))
  {
    if a != "" && b != "" {
      LessTotal(a[1..], b[1..]);
      assert a == [a[0]] + a[1..] && b == [b[0]] + b[1..];
    }
  }

  lemma {:induction false} LessTransitive(a: string, b: string, c: string)
    requires Less(a, b) && Less(b, c)
    ensures Less(a, c)
  {
    if a != "" && a[0] == b[0] == c[0] {
      LessTransitive(a[1..], b[1..], c[1..]);
    }
  }

  lemma LessIsWeakOrder()
    ensures WeakOrder(Less)
  {
    forall a, b | Less(a, b) ensures !Less(b, a) {
      LessTotal(a, b);
    }
    forall a, b, c | !Less(b, a) && !Less(c, b) ensures !Less(c, a) {
      LessTotal(a, b);
      LessTotal(b, c);
      LessTotal(a, c);
      if Less(a, b) && Less(b, c) {
        LessTransitive(a, b, c);
      }
    }
  }

  predicate Sorted(ss: seq<string>) {
    forall i, j :: 0 <= i < j < |ss| ==> LessEq(ss[i], ss[j])
  }

  function SortStrings(ss: seq<string>): (r: seq<string>)
    ensures Sorted(r)
    ensures multiset(r) == multiset(ss)
  {
    LessIsWeakOrder();
    var r := Sort(Less, ss);
    SortedByLess(r);
    r
  }

  lemma SortedByLess(ss: seq<string>)
    requires SortedBy(Less, ss)
    ensures Sorted(ss)
  {
    forall i, j | 0 <= i < j < |ss| ensures LessEq(ss[i], ss[j]) {
      assert !Less(ss[j], ss[i]);
      LessTotal(ss[i], ss[j]);
    }
  }

  lemma FirstIsLeast(a: seq<string>, x: string)
    requires Sorted(a) && x in multiset(a)
    ensures a != [] && LessEq(a[0], x)
  {
    var i :| 0 <= i < |a| && a[i] == x;
  }

  /** A sorted arrangement is unique: any sort gives this one. */
  lemma {:induction false} SortedUnique(a: seq<string>, b: seq<string>)
    requires Sorted(a) && Sorted(b) && multiset(a) == multiset(b)
    ensures a == b
  {
    if a == [] {
      assert |multiset(b)| == 0;
    } else {
      assert |multiset(b)| == |a|;
      assert b[0] in multiset(a) && a[0] in multiset(b);
      FirstIsLeast(a, b[0]);
      FirstIsLeast(b, a[0]);
      LessTotal(a[0], b[0]);
      TailMultiset(a);
      TailMultiset(b);
      SortedUnique(a[1..], b[1..]);
      assert a == [a[0]] + a[1..] && b == [b[0]] + b[1..];
    }
  }

  lemma TailMultiset(a: seq<string>)
    requires a != []
    ensures multiset(a[1..]) == multiset(a) - multiset{a[0]}
    ensures Sorted(a) ==> Sorted(a[1..])
  {
    assert a == [a[0]] + a[1..];
  }

  lemma SortedMember(ss: seq<string>, p: string)
    ensures p in SortStrings(ss) <==> p in ss
  {
    assert p in ss <==> p in multiset(ss);
    assert p in SortStrings(ss) <==> p in multiset(SortStrings(ss));
  }
}
