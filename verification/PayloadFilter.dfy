/** applyFilter on array elements: when deleting one index after another removes exactly the indices named. */
module PayloadFilter {
  import opened Wrappers
  import opened Strings
  import opened JsonTree
  import opened Payload
  import Sorting

  // ---- deleting positions of a sequence ----

  /** One deletion; an index past the end deletes nothing. */
  function Cut<T>(s: seq<T>, n: nat): seq<T> {
    if n < |s| then s[..n] + s[n + 1..] else s
  }

  /** One deletion after another, each index meaning the position as it is by then. */
  function Cuts<T>(s: seq<T>, ns: seq<nat>): seq<T>
    decreases |ns|
  {
    if ns == [] then s else Cuts(Cut(s, ns[0]), ns[1..])
  }

  /** All at once: the elements at other positions, in order. */
  function Keep<T>(s: seq<T>, dropped: set<nat>): seq<T> {
    if s == [] then []
    else
      var n := |s| - 1;
      Keep(s[..n], dropped) + if n in dropped then [] else [s[n]]
  }

  function Named(ns: seq<nat>): set<nat> {
    set n | n in ns
  }

  predicate Decreasing(ns: seq<nat>) {
    forall i, j :: 0 <= i < j < |ns| ==> ns[i] > ns[j]
  }

  lemma {:induction false} KeepBeyond<T>(s: seq<T>, dropped: set<nat>, n: nat)
    requires n >= |s|
    ensures Keep(s, dropped + {n}) == Keep(s, dropped)
  {
    if s != [] {
      KeepBeyond(s[..|s| - 1], dropped, n);
    }
  }

  /** The highest index can be deleted first. */
  lemma {:induction false} KeepCut<T>(s: seq<T>, dropped: set<nat>, n: nat)
    requires forall r :: r in dropped ==> r < n
    ensures Keep(s, dropped + {n}) == Keep(Cut(s, n), dropped)
  {
    if n >= |s| {
      KeepBeyond(s, dropped, n);
    } else if n == |s| - 1 {
      KeepBeyond(s[..n], dropped, n);
      assert Cut(s, n) == s[..n];
    } else {
      var last := |s| - 1;
      KeepCut(s[..last], dropped, n);
      assert Cut(s, n)[..last - 1] == Cut(s[..last], n);
      assert Cut(s, n)[last - 1] == s[last];
      assert last !in dropped + {n} && last - 1 !in dropped;
    }
  }

  /** Deleting in strictly decreasing order is deleting at once. */
  lemma {:induction false} DecreasingIsExact<T>(s: seq<T>, ns: seq<nat>)
    requires Decreasing(ns)
    ensures Cuts(s, ns) == Keep(s, Named(ns))
    decreases |ns|
  {
    if ns == [] {
      KeepAll(s);
      assert Named(ns) == {};
    } else {
      NamedFirst(ns);
      KeepCut(s, Named(ns[1..]), ns[0]);
      DecreasingIsExact(Cut(s, ns[0]), ns[1..]);
    }
  }

  lemma {:induction false} KeepAll<T>(s: seq<T>)
    ensures Keep(s, {}) == s
  {
    if s != [] {
      KeepAll(s[..|s| - 1]);
    }
  }

  // ---- and only in that order ----

  function Upto(n: nat): (r: seq<nat>)
    ensures |r| == n && forall i :: 0 <= i < n ==> r[i] == i
  {
    seq(n, i => i)
  }

  lemma {:induction false} KeepUpto(n: nat, dropped: set<nat>, v: nat)
    ensures v in Keep(Upto(n), dropped) <==> v < n && v !in dropped
  {
    if n > 0 {
      assert Upto(n)[..n - 1] == Upto(n - 1);
      KeepUpto(n - 1, dropped, v);
    }
  }

  predicate Increasing(s: seq<nat>) {
    forall i, j :: 0 <= i < j < |s| ==> s[i] < s[j]
  }

  /** From position `n` on, every value is larger than its position. */
  predicate Shifted(s: seq<nat>, n: nat) {
    Increasing(s) && forall q :: n <= q < |s| ==> s[q] > q
  }

  lemma CutShifts(s: seq<nat>, n: nat, k: nat)
    requires Shifted(s, n)
    ensures Shifted(Cut(s, k), n)
    ensures forall v :: v in Cut(s, k) ==> v in s
    ensures k < |s| ==> s[k] !in Cut(s, k)
  {
    var t := Cut(s, k);
    if k < |s| {
      forall q | 0 <= q < |t| ensures t[q] == s[if q < k then q else q + 1] {
      }
    }
  }

  lemma {:induction false} CutsWithin(s: seq<nat>, ns: seq<nat>, v: nat)
    requires v in Cuts(s, ns)
    ensures v in s
    decreases |ns|
  {
    if ns != [] {
      CutsWithin(Cut(s, ns[0]), ns[1..], v);
    }
  }

  /** Once something below it is gone, deleting at `m` loses a value above `m`. */
  lemma {:induction false} LosesAbove(s: seq<nat>, ns: seq<nat>, n: nat, m: nat) returns (v: nat)
    requires Shifted(s, n) && n <= m && m in ns && |s| > m + |ns|
    ensures v > m && v in s && v !in Cuts(s, ns)
    decreases |ns|
  {
    var after := Cut(s, ns[0]);
    CutShifts(s, n, ns[0]);
    assert ns == [ns[0]] + ns[1..];
    if ns[0] == m {
      v := s[m];
      if v in Cuts(after, ns[1..]) {
        CutsWithin(after, ns[1..], v);
      }
    } else {
      v := LosesAbove(after, ns[1..], n, m);
    }
  }

  function Largest(ns: seq<nat>): (m: nat)
    requires ns != []
    ensures m in ns && forall i :: 0 <= i < |ns| ==> ns[i] <= m
  {
    if |ns| == 1 then ns[0]
    else
      var m := Largest(ns[1..]);
      assert forall i :: 0 < i < |ns| ==> ns[i] == ns[1..][i - 1];
      if ns[0] > m then ns[0] else m
  }

  /** The deletions are exact on every sequence. */
  ghost predicate Exact(ns: seq<nat>) {
    forall s: seq<nat> :: Cuts(s, ns) == Keep(s, Named(ns))
  }

  /** A later index that is not below the first makes some sequence come out wrong. */
  lemma WrongSomewhere(ns: seq<nat>, m: nat)
    requires |ns| > 1 && m == Largest(ns[1..]) && m >= ns[0]
    ensures !Exact(ns)
  {
    var s := Upto(m + |ns| + 1);
    CutShiftsFrom(s, ns[0]);
    var v := LosesAbove(Cut(s, ns[0]), ns[1..], ns[0], m);
    assert v < |s| by {
      CutMember(s, ns[0], v);
    }
    AboveAll(ns, m, v);
    WrongAt(ns, s, v);
  }

  lemma AboveAll(ns: seq<nat>, m: nat, v: nat)
    requires |ns| > 1 && m == Largest(ns[1..]) && m >= ns[0] && v > m
    ensures v !in ns
  {
    assert ns == [ns[0]] + ns[1..];
  }

  lemma WrongAt(ns: seq<nat>, s: seq<nat>, v: nat)
    requires s == Upto(|s|) && v < |s| && v !in ns && v !in Cuts(s, ns)
    ensures !Exact(ns)
  {
    KeepUpto(|s|, Named(ns), v);
    assert v in Keep(s, Named(ns));
  }

  lemma CutMember(s: seq<nat>, n: nat, v: nat)
    requires v in Cut(s, n)
    ensures v in s
  {
  }

  lemma CutShiftsFrom(s: seq<nat>, n: nat)
    requires s == Upto(|s|)
    ensures Shifted(Cut(s, n), n)
  {
    var t := Cut(s, n);
    if n < |s| {
      forall q | 0 <= q < |t| ensures t[q] == if q < n then q else q + 1 {
      }
    }
  }

  lemma FirstMustBeHighest(ns: seq<nat>)
    requires ns != [] && Exact(ns)
    ensures forall i :: 0 < i < |ns| ==> ns[i] < ns[0]
  {
    if |ns| > 1 {
      var m := Largest(ns[1..]);
      assert forall i :: 0 < i < |ns| ==> ns[i] == ns[1..][i - 1];
      if m >= ns[0] {
        WrongSomewhere(ns, m);
      }
    }
  }

  lemma NamedFirst(ns: seq<nat>)
    requires ns != [] && forall i :: 0 < i < |ns| ==> ns[i] < ns[0]
    ensures Named(ns) == Named(ns[1..]) + {ns[0]}
    ensures forall r :: r in Named(ns[1..]) ==> r < ns[0]
  {
    assert ns == [ns[0]] + ns[1..];
    forall r | r in ns[1..] ensures r < ns[0] {
      var i :| 0 <= i < |ns[1..]| && ns[1..][i] == r;
      assert ns[i + 1] == r;
    }
  }

  lemma RestIsExact(ns: seq<nat>, t: seq<nat>)
    requires ns != [] && Exact(ns)
    ensures Cuts(t, ns[1..]) == Keep(t, Named(ns[1..]))
  {
    FirstMustBeHighest(ns);
    NamedFirst(ns);
    var n := ns[0];
    var s := Uncut(t, n);
    assert Cuts(s, ns) == Keep(s, Named(ns));
    KeepCut(s, Named(ns[1..]), n);
  }

  /** Every sequence is what is left after some deletion at `n`. */
  function Uncut(t: seq<nat>, n: nat): (s: seq<nat>)
    ensures Cut(s, n) == t
  {
    if n <= |t| then
      var s := t[..n] + [0] + t[n..];
      assert s[..n] == t[..n] && s[n + 1..] == t[n..];
      s
    else t
  }

  /** Deleting one index after another is right on every sequence exactly when the indices strictly decrease. */
  lemma {:induction false} ExactIffDecreasing(ns: seq<nat>)
    ensures Exact(ns) <==> Decreasing(ns)
    decreases |ns|
  {
    if Decreasing(ns) {
      forall s: seq<nat> ensures Cuts(s, ns) == Keep(s, Named(ns)) {
        DecreasingIsExact(s, ns);
      }
    }
    if Exact(ns) && ns != [] {
      forall t: seq<nat> ensures Cuts(t, ns[1..]) == Keep(t, Named(ns[1..])) {
        RestIsExact(ns, t);
      }
      ExactIffDecreasing(ns[1..]);
      FirstMustBeHighest(ns);
      forall i, j | 0 <= i < j < |ns| ensures ns[i] > ns[j] {
        if i > 0 {
          assert ns[1..][i - 1] > ns[1..][j - 1];
        }
      }
    }
  }

  // ---- the paths of the code ----

  /** The path of an element of the array at `base`. */
  function IndexPath(base: string, d: string): string {
    base + "." + d
  }

  function IndexPaths(base: string, ds: seq<string>): (r: seq<string>)
    ensures |r| == |ds|
  {
    seq(|ds|, i requires 0 <= i < |ds| => IndexPath(base, ds[i]))
  }

  predicate AllNumeric(ds: seq<string>) {
    forall i :: 0 <= i < |ds| ==> Numeric(ds[i])
  }

  function Numbers(ds: seq<string>): (r: seq<nat>)
    requires AllNumeric(ds)
    ensures |r| == |ds|
  {
    seq(|ds|, i requires 0 <= i < |ds| => Number(ds[i]))
  }

  lemma {:induction false} SplitDot(x: string, y: string)
    ensures Split(x + "." + y, '.') == Split(x, '.') + Split(y, '.')
  {
    var whole := x + "." + y;
    if x == "" {
      assert whole[1..] == y;
    } else {
      assert whole[0] == x[0] && whole[1..] == x[1..] + "." + y;
      SplitDot(x[1..], y);
      FirstPart(x[0], Split(x[1..], '.'), Split(y, '.'));
    }
  }

  lemma FirstPart(c: char, a: seq<string>, b: seq<string>)
    requires a != []
    ensures [""] + (a + b) == [""] + a + b
    ensures [[c] + (a + b)[0]] + (a + b)[1..] == [[c] + a[0]] + a[1..] + b
  {
  }

  lemma {:induction false} SplitPlain(d: string)
    requires '.' !in d
    ensures Split(d, '.') == [d]
  {
    if d != "" {
      assert d[0] in d;
      SplitPlain(d[1..]);
      assert d == [d[0]] + d[1..];
    }
  }

  lemma IndexKeys(base: string, d: string)
    requires Numeric(d)
    ensures Keys(IndexPath(base, d)) == Keys(base) + [d]
  {
    forall i | 0 <= i < |d| ensures d[i] != '.' {
      assert IsDigit(d[i]);
    }
    SplitDot(base, d);
    SplitPlain(d);
  }

  /** Deleting an element of the array at `keys` cuts that array. */
  lemma {:induction false} DropIndex(j: Json, keys: seq<string>, d: string, items: seq<Json>)
    requires Get(j, keys) == Some(Arr(items)) && Numeric(d)
    ensures Get(Drop(j, keys + [d]), keys) == Some(Arr(Cut(items, Number(d))))
    decreases |keys|
  {
    var all := keys + [d];
    if keys == [] {
      assert all == [d];
    } else {
      assert all[0] == keys[0] && all[1..] == keys[1..] + [d];
      var child := if j.Obj? then j.fields[keys[0]] else j.items[Number(keys[0])];
      DropIndex(child, keys[1..], d, items);
    }
  }

  lemma {:induction false} DropsCut(j: Json, base: string, ds: seq<string>, items: seq<Json>)
    requires Get(j, Keys(base)) == Some(Arr(items)) && AllNumeric(ds)
    ensures Get(Drops(j, IndexPaths(base, ds)), Keys(base)) == Some(Arr(Cuts(items, Numbers(ds))))
    decreases |ds|
  {
    if ds != [] {
      IndexKeys(base, ds[0]);
      DropIndex(j, Keys(base), ds[0], items);
      assert IndexPaths(base, ds)[1..] == IndexPaths(base, ds[1..]);
      assert Numbers(ds)[1..] == Numbers(ds[1..]);
      DropsCut(Drop(j, Keys(IndexPath(base, ds[0]))), base, ds[1..], Cut(items, Number(ds[0])));
    }
  }

  /** The indices, in the order their paths are deleted in. */
  function SortedIndices(base: string, ds: seq<string>): (r: seq<string>)
    ensures |r| == |Order(IndexPaths(base, ds))|
  {
    var paths := Order(IndexPaths(base, ds));
    seq(|paths|, i requires 0 <= i < |paths| => if |base| < |paths[i]| then paths[i][|base| + 1..] else "")
  }

  lemma OrderedIndices(base: string, ds: seq<string>)
    requires AllNumeric(ds)
    ensures Order(IndexPaths(base, ds)) == IndexPaths(base, SortedIndices(base, ds))
    ensures AllNumeric(SortedIndices(base, ds))
    ensures forall d :: d in SortedIndices(base, ds) <==> d in ds
  {
    var paths, es := Order(IndexPaths(base, ds)), SortedIndices(base, ds);
    forall i | 0 <= i < |paths| ensures paths[i] == IndexPath(base, es[i]) && es[i] in ds && Numeric(es[i]) {
      OrderMember(IndexPaths(base, ds), paths[i]);
      var k :| 0 <= k < |ds| && IndexPaths(base, ds)[k] == paths[i];
      assert IndexPath(base, ds[k])[|base| + 1..] == ds[k];
    }
    forall d | d in ds ensures d in es {
      var k :| 0 <= k < |ds| && ds[k] == d;
      OrderMember(IndexPaths(base, ds), IndexPaths(base, ds)[k]);
      var i :| 0 <= i < |paths| && paths[i] == IndexPath(base, d);
      assert IndexPath(base, d)[|base| + 1..] == d;
      assert es[i] == d;
    }
  }

  lemma NamedSame(ds: seq<string>, es: seq<string>)
    requires AllNumeric(ds) && AllNumeric(es) && forall d :: d in es <==> d in ds
    ensures Named(Numbers(es)) == Named(Numbers(ds))
  {
    NamedWithin(ds, es);
    NamedWithin(es, ds);
  }

  lemma NamedWithin(ds: seq<string>, es: seq<string>)
    requires AllNumeric(ds) && AllNumeric(es) && forall d :: d in es ==> d in ds
    ensures Named(Numbers(es)) <= Named(Numbers(ds))
  {
    forall n | n in Numbers(es) ensures n in Numbers(ds) {
      var i :| 0 <= i < |es| && Numbers(es)[i] == n;
      assert es[i] in ds;
      var k :| 0 <= k < |ds| && ds[k] == es[i];
      assert Numbers(ds)[k] == n;
    }
  }

  /** What the filter leaves of the array at `base`. */
  lemma FilterCuts(j: Json, base: string, ds: seq<string>, items: seq<Json>)
    requires Get(j, Keys(base)) == Some(Arr(items)) && AllNumeric(ds)
    ensures AllNumeric(SortedIndices(base, ds))
    ensures Get(Drops(j, Order(IndexPaths(base, ds))), Keys(base)) ==
            Some(Arr(Cuts(items, Numbers(SortedIndices(base, ds)))))
  {
    OrderedIndices(base, ds);
    DropsCut(j, base, SortedIndices(base, ds), items);
  }

  /** The filter removes exactly the elements its indices name, and keeps the order of the rest. */
  ghost predicate Removes(base: string, ds: seq<string>, j: Json, items: seq<Json>)
    requires AllNumeric(ds)
  {
    Get(Drops(j, Order(IndexPaths(base, ds))), Keys(base)) == Some(Arr(Keep(items, Named(Numbers(ds)))))
  }

  lemma {:induction false} GetBuild(keys: seq<string>, v: Json)
    ensures Get(Build(keys, v), keys) == Some(v)
  {
    if keys != [] {
      GetBuild(keys[1..], v);
    }
  }

  function Lift(s: seq<nat>): (r: seq<Json>)
    ensures |r| == |s| && forall i :: 0 <= i < |s| ==> r[i] == Num(s[i] as real)
  {
    seq(|s|, i requires 0 <= i < |s| => Num(s[i] as real))
  }

  lemma {:induction false} LiftCuts(s: seq<nat>, ns: seq<nat>)
    ensures Cuts(Lift(s), ns) == Lift(Cuts(s, ns))
    decreases |ns|
  {
    if ns != [] {
      LiftCut(s, ns[0]);
      LiftCuts(Cut(s, ns[0]), ns[1..]);
    }
  }

  lemma LiftCut(s: seq<nat>, n: nat)
    ensures Cut(Lift(s), n) == Lift(Cut(s, n))
  {
    var a, b := Cut(Lift(s), n), Lift(Cut(s, n));
    forall i | 0 <= i < |b| ensures a[i] == b[i] {
    }
  }

  lemma {:induction false} LiftKeep(s: seq<nat>, dropped: set<nat>)
    ensures Keep(Lift(s), dropped) == Lift(Keep(s, dropped))
  {
    if s != [] {
      var n := |s| - 1;
      LiftKeep(s[..n], dropped);
      assert Lift(s)[..n] == Lift(s[..n]);
    }
  }

  lemma LiftInjective(s: seq<nat>, t: seq<nat>)
    requires Lift(s) == Lift(t)
    ensures s == t
  {
    forall i | 0 <= i < |s| ensures s[i] == t[i] {
      assert Lift(s)[i] == Lift(t)[i];
    }
  }

  lemma RemovesOnLifted(base: string, ds: seq<string>, s: seq<nat>)
    requires AllNumeric(ds)
    requires Removes(base, ds, Build(Keys(base), Arr(Lift(s))), Lift(s))
    ensures AllNumeric(SortedIndices(base, ds))
    ensures Cuts(s, Numbers(SortedIndices(base, ds))) == Keep(s, Named(Numbers(SortedIndices(base, ds))))
  {
    GetBuild(Keys(base), Arr(Lift(s)));
    FilterCuts(Build(Keys(base), Arr(Lift(s))), base, ds, Lift(s));
    OrderedIndices(base, ds);
    NamedSame(ds, SortedIndices(base, ds));
    LiftCuts(s, Numbers(SortedIndices(base, ds)));
    LiftKeep(s, Named(Numbers(ds)));
    LiftInjective(Cuts(s, Numbers(SortedIndices(base, ds))), Keep(s, Named(Numbers(ds))));
  }

  /** Filtering elements of one array is right for every body exactly when the string order of their paths, reversed,
      is a strictly decreasing order of their indices. */
  lemma FilterExactIffDecreasing(base: string, ds: seq<string>)
    requires AllNumeric(ds)
    ensures AllNumeric(SortedIndices(base, ds))
    ensures (forall j, items :: Get(j, Keys(base)) == Some(Arr(items)) ==> Removes(base, ds, j, items))
       <==> Decreasing(Numbers(SortedIndices(base, ds)))
  {
    OrderedIndices(base, ds);
    var ns := Numbers(SortedIndices(base, ds));
    NamedSame(ds, SortedIndices(base, ds));
    if Decreasing(ns) {
      forall j, items | Get(j, Keys(base)) == Some(Arr(items)) ensures Removes(base, ds, j, items) {
        FilterCuts(j, base, ds, items);
        DecreasingIsExact(items, ns);
      }
    }
    if forall j, items :: Get(j, Keys(base)) == Some(Arr(items)) ==> Removes(base, ds, j, items) {
      forall s: seq<nat> ensures Cuts(s, ns) == Keep(s, Named(ns)) {
        GetBuild(Keys(base), Arr(Lift(s)));
        assert Removes(base, ds, Build(Keys(base), Arr(Lift(s))), Lift(s));
        RemovesOnLifted(base, ds, s);
      }
      ExactIffDecreasing(ns);
    }
  }

  // ---- indices of one width ----

  function Pow10(n: nat): (r: nat)
    ensures r > 0
  {
    if n == 0 then 1 else 10 * Pow10(n - 1)
  }

  predicate Digits(s: string) {
    forall i :: 0 <= i < |s| ==> IsDigit(s[i])
  }

  lemma NumberLast(s: string)
    requires s != "" && Digits(s)
    ensures Digits(s[..|s| - 1]) && 0 <= s[|s| - 1] as int - '0' as int <= 9
    ensures Number(s) == Number(s[..|s| - 1]) * 10 + (s[|s| - 1] as int - '0' as int)
  {
    assert IsDigit(s[|s| - 1]);
  }

  lemma {:induction false} NumberFirst(s: string)
    requires s != "" && Digits(s)
    ensures Digits(s[1..])
    ensures Number(s) == (s[0] as int - '0' as int) * Pow10(|s| - 1) + Number(s[1..])
    ensures Number(s[1..]) < Pow10(|s| - 1)
  {
    NumberLast(s);
    if |s| > 1 {
      var front, tail := s[..|s| - 1], s[1..];
      NumberFirst(front);
      NumberLast(tail);
      assert tail[..|tail| - 1] == front[1..] && tail[|tail| - 1] == s[|s| - 1];
      TenTimes(s[0] as int - '0' as int, Pow10(|s| - 2));
    }
  }

  lemma TenTimes(x: int, p: int)
    ensures x * p * 10 == x * (10 * p)
  {
  }

  /** On equal widths the order of strings is the order of numbers. */
  lemma {:induction false} LessIsNumeric(a: string, b: string)
    requires Digits(a) && Digits(b) && |a| == |b|
    ensures Less(a, b) <==> Number(a) < Number(b)
    ensures a == b <==> Number(a) == Number(b)
  {
    if a != "" {
      NumberFirst(a);
      NumberFirst(b);
      LessIsNumeric(a[1..], b[1..]);
      var p := Pow10(|a| - 1);
      var x, y := a[0] as int - '0' as int, b[0] as int - '0' as int;
      assert a == [a[0]] + a[1..] && b == [b[0]] + b[1..];
      if x < y {
        Apart(x, y, p);
      } else if y < x {
        Apart(y, x, p);
      }
    }
  }

  lemma Apart(x: int, y: int, p: nat)
    requires x < y
    ensures x * p + p <= y * p
  {
    assert (y - x - 1) * p >= 0;
  }

  lemma {:induction false} LessPrefix(pre: string, a: string, b: string)
    ensures Less(pre + a, pre + b) <==> Less(a, b)
  {
    if pre == "" {
      assert pre + a == a && pre + b == b;
    } else {
      var x, y := pre + a, pre + b;
      assert x[0] == pre[0] == y[0];
      assert x[1..] == pre[1..] + a && y[1..] == pre[1..] + b;
      LessPrefix(pre[1..], a, b);
    }
  }

  /** Distinct indices of one width are deleted highest first, so the filter removes exactly them. */
  lemma EqualWidthsDecrease(base: string, ds: seq<string>, width: nat)
    requires AllNumeric(ds) && forall d :: d in ds ==> |d| == width
    requires forall i, j :: 0 <= i < j < |ds| ==> ds[i] != ds[j]
    ensures AllNumeric(SortedIndices(base, ds)) && Decreasing(Numbers(SortedIndices(base, ds)))
  {
    OrderedIndices(base, ds);
    var paths, es := Order(IndexPaths(base, ds)), SortedIndices(base, ds);
    PathsDistinct(base, ds);
    forall i, j | 0 <= i < j < |es| ensures Numbers(es)[i] > Numbers(es)[j] {
      assert es[i] in ds && es[j] in ds;
      assert paths[i] == IndexPath(base, es[i]) && paths[j] == IndexPath(base, es[j]);
      OrderDescends(IndexPaths(base, ds), i, j);
      assert paths[i] != paths[j];
      LessPrefix(base + ".", es[j], es[i]);
      LessIsNumeric(es[j], es[i]);
    }
  }

  lemma PathsDistinct(base: string, ds: seq<string>)
    requires forall i, j :: 0 <= i < j < |ds| ==> ds[i] != ds[j]
    ensures
      var paths := Order(IndexPaths(base, ds));
      forall i, j :: 0 <= i < j < |paths| ==> paths[i] != paths[j]
  {
    var raw := IndexPaths(base, ds);
    forall i, j | 0 <= i < j < |raw| ensures raw[i] != raw[j] {
      assert raw[i][|base| + 1..] == ds[i] && raw[j][|base| + 1..] == ds[j];
    }
    OrderDistinct(raw);
  }

  lemma TwoCuts(items: seq<Json>, a: nat, b: nat)
    ensures Cuts(items, [a, b]) == Cut(Cut(items, a), b)
  {
    assert [a, b][1..] == [b] && [b][1..] == [];
    assert Cuts(Cut(items, a), [b]) == Cuts(Cut(Cut(items, a), b), []);
  }

  lemma NineTenOrder()
    ensures Order(IndexPaths("a", ["10", "9"])) == IndexPaths("a", ["9", "10"])
  {
    LessPrefix("a.", "10", "9");
    assert Less("10", "9");
    TwoPaths("a", "10", "9");
  }

  lemma TwoPaths(base: string, d: string, e: string)
    requires Less(IndexPath(base, d), IndexPath(base, e))
    ensures Order(IndexPaths(base, [d, e])) == IndexPaths(base, [e, d])
  {
    PairOfPaths(base, d, e);
    PairOfPaths(base, e, d);
    OrderOfPair(IndexPath(base, d), IndexPath(base, e));
  }

  lemma PairOfPaths(base: string, d: string, e: string)
    ensures IndexPaths(base, [d, e]) == [IndexPath(base, d), IndexPath(base, e)]
  {
  }

  lemma OrderOfPair(low: string, high: string)
    requires Less(low, high)
    ensures Order([low, high]) == [high, low]
  {
    SortOfPair(low, high);
    assert Reverse([low, high]) == Reverse([high]) + [low] && Reverse([high]) == [high];
  }

  lemma SortOfPair(low: string, high: string)
    requires Less(low, high)
    ensures Sorting.SortStrings([low, high]) == [low, high]
  {
    Sorting.LessIsWeakOrder();
    assert Sorting.Sorted([low, high]);
    Sorting.SortedUnique(Sorting.SortStrings([low, high]), [low, high]);
  }

  /** Widths that differ can go wrong: 9 is deleted before 10, which by then names another element. */
  lemma NineBeforeTen(items: seq<Json>)
    requires |items| == 12
    ensures Order(IndexPaths("a", ["10", "9"])) == IndexPaths("a", ["9", "10"])
    ensures Cuts(items, [9, 10]) == items[..9] + [items[10]]
    ensures Keep(items, {9, 10}) == items[..9] + [items[11]]
  {
    NineTenOrder();
    TwoCuts(items, 9, 10);
    TwoCuts(items, 10, 9);
    DecreasingIsExact(items, [10, 9]);
    assert Named([10, 9]) == {9, 10};
  }
}
