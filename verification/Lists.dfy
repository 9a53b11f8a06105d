/** Mapping and filtering sequences; `env` carries what the mapped function needs besides the element. */
module Lists {

  /** A sequence without its element at `n`. */
  function Without<T>(s: seq<T>, n: nat): seq<T>
    requires n < |s|
  {
    s[..n] + s[n + 1..]
  }

  /** Where the element now at `i` was before the one at `n` went. */
  function Up(n: int, i: int): int {
    if i >= n then i + 1 else i
  }

  /** A repeated element is counted at least twice. */
  lemma Twice<T>(s: seq<T>, i: nat, j: nat)
    requires i < j < |s| && s[i] == s[j]
    ensures multiset(s)[s[i]] >= 2
  {
    assert s == s[..j] + [s[j]] + s[j + 1..];
    assert s[..j][i] in multiset(s[..j]);
  }

  /** Without repetitions every element is counted once. */
  lemma {:induction false} Once<T>(s: seq<T>, x: T)
    requires forall i, j :: 0 <= i < j < |s| ==> s[i] != s[j]
    ensures multiset(s)[x] == if x in s then 1 else 0
  {
    if s != [] {
      Once(s[1..], x);
      assert s == [s[0]] + s[1..];
    }
  }

  lemma Regroup<T>(a: seq<T>, b: seq<T>, c: seq<T>)
    ensures a + (b + c) == a + b + c
  {
  }

  /** The counts of all elements together. */
  function Tally<T>(count: T -> nat, xs: seq<T>): nat {
    if xs == [] then 0 else Tally(count, xs[..|xs| - 1]) + count(xs[|xs| - 1])
  }

  lemma {:induction false} TallyUpdate<T>(count: T -> nat, xs: seq<T>, i: nat, x: T)
    requires i < |xs|
    ensures Tally(count, xs[i := x]) == Tally(count, xs) - count(xs[i]) + count(x)
  {
    var n, after := |xs| - 1, xs[i := x];
    if i == n {
      assert after[..n] == xs[..n];
    } else {
      TallyUpdate(count, xs[..n], i, x);
      assert after[..n] == xs[..n][i := x];
    }
  }

  /** Where something is counted, some element counts. */
  lemma {:induction false} TallyPositive<T>(count: T -> nat, xs: seq<T>) returns (i: nat)
    requires Tally(count, xs) > 0
    ensures i < |xs| && count(xs[i]) > 0
  {
    var n := |xs| - 1;
    if count(xs[n]) > 0 {
      i := n;
    } else {
      i := TallyPositive(count, xs[..n]);
    }
  }

  function FlatMap<E, A, B>(f: (E, A) -> seq<B>, env: E, xs: seq<A>): seq<B>
    decreases |xs|
  {
    if xs == [] then [] else f(env, xs[0]) + FlatMap(f, env, xs[1..])
  }

  lemma {:induction false} FlatMapAppend<E, A, B>(f: (E, A) -> seq<B>, env: E, a: seq<A>, b: seq<A>)
    ensures FlatMap(f, env, a + b) == FlatMap(f, env, a) + FlatMap(f, env, b)
    decreases |a|
  {
    if a == [] {
      assert a + b == b;
    } else {
      FlatMapAppend(f, env, a[1..], b);
      assert (a + b)[0] == a[0] && (a + b)[1..] == a[1..] + b;
      Regroup(f(env, a[0]), FlatMap(f, env, a[1..]), FlatMap(f, env, b));
    }
  }

  /** The step of a loop that appends what each element gives. */
  lemma FlatMapStep<E, A, B>(f: (E, A) -> seq<B>, env: E, xs: seq<A>, i: nat)
    requires i < |xs|
    ensures FlatMap(f, env, xs[..i + 1]) == FlatMap(f, env, xs[..i]) + f(env, xs[i])
  {
    assert xs[..i + 1] == xs[..i] + [xs[i]];
    FlatMapAppend(f, env, xs[..i], [xs[i]]);
    FlatMapOne(f, env, xs[i]);
  }

  lemma FlatMapOne<E, A, B>(f: (E, A) -> seq<B>, env: E, x: A)
    ensures FlatMap(f, env, [x]) == f(env, x)
  {
    assert [x][1..] == [];
    assert FlatMap(f, env, [x]) == f(env, x) + FlatMap(f, env, []);
  }

  /** Two passes are one when every element agrees. */
  lemma {:induction false} FlatMapFusion<E, A, B, C>(
      f: (E, A) -> seq<B>, g: (E, B) -> seq<C>, h: (E, A) -> seq<C>, env: E, xs: seq<A>)
    requires forall x :: x in xs ==> FlatMap(g, env, f(env, x)) == h(env, x)
    ensures FlatMap(g, env, FlatMap(f, env, xs)) == FlatMap(h, env, xs)
    decreases |xs|
  {
    if xs != [] {
      FlatMapFusion(f, g, h, env, xs[1..]);
      FlatMapAppend(g, env, f(env, xs[0]), FlatMap(f, env, xs[1..]));
    }
  }

  /** A pass that gives one result per element, position by position. */
  lemma {:induction false} FlatMapPointwise<E, A, B>(f: (E, A) -> seq<B>, env: E, xs: seq<A>)
    requires forall x :: x in xs ==> |f(env, x)| == 1
    ensures |FlatMap(f, env, xs)| == |xs|
    ensures forall i :: 0 <= i < |xs| ==> FlatMap(f, env, xs)[i] == f(env, xs[i])[0]
    decreases |xs|
  {
    if xs != [] {
      FlatMapPointwise(f, env, xs[1..]);
    }
  }

  /** Passes of the same shape agree on a list exactly when they agree on every element. */
  lemma {:induction false} FlatMapSameShape<E, A, B>(f: (E, A) -> seq<B>, g: (E, A) -> seq<B>, env: E, xs: seq<A>)
    requires forall x :: x in xs ==> |f(env, x)| == |g(env, x)|
    ensures |FlatMap(f, env, xs)| == |FlatMap(g, env, xs)|
    ensures FlatMap(f, env, xs) == FlatMap(g, env, xs) <==> forall x :: x in xs ==> f(env, x) == g(env, x)
    decreases |xs|
  {
    if xs != [] {
      FlatMapSameShape(f, g, env, xs[1..]);
      var a, b := f(env, xs[0]), g(env, xs[0]);
      var whole, other := FlatMap(f, env, xs), FlatMap(g, env, xs);
      assert whole[..|a|] == a && other[..|b|] == b;
      assert whole[|a|..] == FlatMap(f, env, xs[1..]) && other[|b|..] == FlatMap(g, env, xs[1..]);
      assert xs == [xs[0]] + xs[1..];
    }
  }

  lemma {:induction false} FlatMapMember<E, A, B>(f: (E, A) -> seq<B>, env: E, xs: seq<A>, y: B)
    ensures y in FlatMap(f, env, xs) <==> exists x :: x in xs && y in f(env, x)
    decreases |xs|
  {
    if xs != [] {
      FlatMapMember(f, env, xs[1..], y);
    }
  }

  function Filter<A(!new)>(p: A -> bool, xs: seq<A>): (r: seq<A>)
    ensures forall x :: x in r <==> x in xs && p(x)
  {
    if xs == [] then [] else (if p(xs[0]) then [xs[0]] else []) + Filter(p, xs[1..])
  }

  lemma {:induction false} FilterAppend<A(!new)>(p: A -> bool, a: seq<A>, b: seq<A>)
    ensures Filter(p, a + b) == Filter(p, a) + Filter(p, b)
  {
    if a == [] {
      assert a + b == b;
    } else {
      FilterAppend(p, a[1..], b);
      assert (a + b)[0] == a[0] && (a + b)[1..] == a[1..] + b;
      Regroup(if p(a[0]) then [a[0]] else [], Filter(p, a[1..]), Filter(p, b));
    }
  }

  lemma FilterStep<A(!new)>(p: A -> bool, xs: seq<A>, i: nat)
    requires i < |xs|
    ensures Filter(p, xs[..i + 1]) == Filter(p, xs[..i]) + if p(xs[i]) then [xs[i]] else []
  {
    assert xs[..i + 1] == xs[..i] + [xs[i]];
    FilterAppend(p, xs[..i], [xs[i]]);
    assert [xs[i]][1..] == [];
    assert Filter(p, [xs[i]]) == (if p(xs[i]) then [xs[i]] else []) + Filter(p, []);
  }

  lemma {:induction false} FilterAll<A(!new)>(p: A -> bool, xs: seq<A>)
    requires forall x :: x in xs ==> p(x)
    ensures Filter(p, xs) == xs
  {
    if xs != [] {
      FilterAll(p, xs[1..]);
    }
  }

  lemma {:induction false} FilterNone<A(!new)>(p: A -> bool, xs: seq<A>)
    requires forall x :: x in xs ==> !p(x)
    ensures Filter(p, xs) == []
  {
    if xs != [] {
      FilterNone(p, xs[1..]);
    }
  }
}
