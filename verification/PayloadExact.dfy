/** applyFilter on items of any arrays, arrays within arrays, and object keys together: the exact condition for taking
    out just what is named. */
module PayloadExact {
  import opened Wrappers
  import opened Strings
  import opened JsonTree
  import opened Payload
  import opened PayloadSweep
  import PayloadFilter

  function DropAll(j: Json, paths: seq<seq<string>>): Json
    requires NonEmpty(paths)
    decreases |paths|
  {
    if paths == [] then j else DropAll(Drop(j, paths[0]), paths[1..])
  }

  predicate NonEmpty(paths: seq<seq<string>>) {
    forall i :: 0 <= i < |paths| ==> paths[i] != []
  }

  lemma {:induction false} DropsAll(j: Json, paths: seq<string>)
    ensures Drops(j, paths) == DropAll(j, KeyPaths(paths))
    decreases |paths|
  {
    if paths != [] {
      DropsAll(Drop(j, Keys(paths[0])), paths[1..]);
      assert KeyPaths(paths)[1..] == KeyPaths(paths[1..]);
    }
  }

  /** Deleting one path after another takes out of this body exactly the nodes the paths name in it. */
  predicate ExactOn(j: Json, paths: seq<seq<string>>)
    requires NonEmpty(paths)
  {
    DropAll(j, paths) == Sweep(Marks(Whole(j), paths))
  }

  // ---- bodies that hold one array ----

  /** The value below a chain of objects. */
  function Below(b: seq<string>, v: Json): Json {
    if b == [] then v else Obj(map[b[0] := Below(b[1..], v)])
  }

  function MarkedBelow(b: seq<string>, t: Marked): Marked {
    if b == [] then t else Members(map[b[0] := MarkedBelow(b[1..], t)])
  }

  lemma {:induction false} WholeBelow(b: seq<string>, v: Json)
    ensures Whole(Below(b, v)) == MarkedBelow(b, Whole(v))
  {
    if b != [] {
      WholeBelow(b[1..], v);
      assert Whole(Below(b, v)).members == map[b[0] := MarkedBelow(b[1..], Whole(v))];
    }
  }

  lemma {:induction false} SweepBelow(b: seq<string>, t: Marked)
    requires !t.Gone?
    ensures Sweep(MarkedBelow(b, t)) == Below(b, Sweep(t)) && !MarkedBelow(b, t).Gone?
  {
    if b != [] {
      SweepBelow(b[1..], t);
      assert Sweep(MarkedBelow(b, t)).fields == map[b[0] := Below(b[1..], Sweep(t))];
    }
  }

  lemma {:induction false} BelowInjective(b: seq<string>, v: Json, w: Json)
    requires Below(b, v) == Below(b, w)
    ensures v == w
  {
    if b != [] {
      assert Below(b, v).fields[b[0]] == Below(b[1..], v) && Below(b, w).fields[b[0]] == Below(b[1..], w);
      BelowInjective(b[1..], v, w);
    }
  }

  /** The path goes through an item of the array at `b`, or names one. */
  predicate Enters(b: seq<string>, p: seq<string>) {
    b < p && Numeric(p[|b|])
  }

  function IndexIn(b: seq<string>, p: seq<string>): nat
    requires Enters(b, p)
  {
    Number(p[|b|])
  }

  /** What the path names within its item; nothing when it names the item itself. */
  function Inside(b: seq<string>, p: seq<string>): seq<string>
    requires b < p
  {
    p[|b| + 1..]
  }

  /** What deleting a path does to the items of an array. */
  function DropIn(items: seq<Json>, n: nat, inside: seq<string>): seq<Json> {
    if n >= |items| then items
    else if inside == [] then items[..n] + items[n + 1..]
    else items[n := Drop(items[n], inside)]
  }

  lemma {:induction false} DropBelow(b: seq<string>, items: seq<Json>, p: seq<string>)
    requires p != [] && !(p <= b)
    ensures Drop(Below(b, Arr(items)), p) ==
            Below(b, Arr(if Enters(b, p) then DropIn(items, IndexIn(b, p), Inside(b, p)) else items))
    decreases |b|
  {
    if b == [] {
      if Numeric(p[0]) && Number(p[0]) < |items| {
        assert items[Number(p[0]) := items[Number(p[0])]] == items;
      }
    } else if p[0] == b[0] {
      assert p == [b[0]] + p[1..] && b == [b[0]] + b[1..];
      DropBelow(b[1..], items, p[1..]);
      assert b < p <==> b[1..] < p[1..];
      assert b < p ==> Inside(b, p) == Inside(b[1..], p[1..]);
      var child := Below(b[1..], Arr(items));
      assert map[b[0] := child][b[0] := Drop(child, p[1..])] == map[b[0] := Drop(child, p[1..])];
    }
  }

  function MarkIn(items: seq<Marked>, n: nat, inside: seq<string>): seq<Marked> {
    if n < |items| then items[n := Mark(items[n], inside)] else items
  }

  lemma {:induction false} MarkBelow(b: seq<string>, items: seq<Marked>, p: seq<string>)
    requires p != [] && !(p <= b)
    ensures Mark(MarkedBelow(b, Items(items)), p) ==
            MarkedBelow(b, Items(if Enters(b, p) then MarkIn(items, IndexIn(b, p), Inside(b, p)) else items))
    decreases |b|
  {
    if b != [] && p[0] == b[0] {
      assert p == [b[0]] + p[1..] && b == [b[0]] + b[1..];
      MarkBelow(b[1..], items, p[1..]);
      assert b < p <==> b[1..] < p[1..];
      assert b < p ==> Inside(b, p) == Inside(b[1..], p[1..]);
      var child := MarkedBelow(b[1..], Items(items));
      assert map[b[0] := child][b[0] := Mark(child, p[1..])] == map[b[0] := Mark(child, p[1..])];
    }
  }

  /** No path names the array at `b` or anything it is in. */
  predicate Beside(b: seq<string>, paths: seq<seq<string>>) {
    forall i :: 0 <= i < |paths| ==> paths[i] != [] && !(paths[i] <= b)
  }

  /** What the paths name within item `n` of the array at `b`. */
  function Insides(b: seq<string>, n: nat, paths: seq<seq<string>>): seq<seq<string>> {
    if paths == [] then []
    else
      (if Enters(b, paths[0]) && IndexIn(b, paths[0]) == n then [Inside(b, paths[0])] else []) +
      Insides(b, n, paths[1..])
  }

  /** Marking keeps the shape of the array and marks each item by what is named within it. */
  lemma {:induction false} MarksBelow(b: seq<string>, items: seq<Marked>, paths: seq<seq<string>>)
    returns (out: seq<Marked>)
    requires Beside(b, paths)
    ensures Marks(MarkedBelow(b, Items(items)), paths) == MarkedBelow(b, Items(out)) && |out| == |items|
    ensures forall n :: 0 <= n < |items| ==> out[n] == Marks(items[n], Insides(b, n, paths))
    decreases |paths|
  {
    if paths == [] {
      out := items;
    } else {
      var p := paths[0];
      MarkBelow(b, items, p);
      var next := if Enters(b, p) then MarkIn(items, IndexIn(b, p), Inside(b, p)) else items;
      out := MarksBelow(b, next, paths[1..]);
      forall n | 0 <= n < |items| ensures out[n] == Marks(items[n], Insides(b, n, paths)) {
        var rest := Insides(b, n, paths[1..]);
        if Enters(b, p) && IndexIn(b, p) == n {
          assert ([Inside(b, p)] + rest)[1..] == rest;
        } else {
          assert [] + rest == rest;
        }
      }
    }
  }

  /** What the paths leave of a body that holds one array: its items, each marked by what is named within it. */
  lemma SweptArray(b: seq<string>, items: seq<Json>, paths: seq<seq<string>>) returns (marked: seq<Marked>)
    requires Beside(b, paths)
    ensures Sweep(Marks(Whole(Below(b, Arr(items))), paths)) == Below(b, Arr(SweepAll(marked)))
    ensures |marked| == |items|
    ensures forall n :: 0 <= n < |items| ==> marked[n] == Marks(Whole(items[n]), Insides(b, n, paths))
  {
    WholeBelow(b, Arr(items));
    marked := MarksBelow(b, WholeItems(items), paths);
    SweepBelow(b, Items(marked));
  }

  // ---- items of one array ----

  /** The indices of the items of one array that are named, in the order they are deleted in. */
  function Cutters(b: seq<string>, paths: seq<seq<string>>): seq<nat> {
    if paths == [] then []
    else (if Names(b, paths[0]) then [IndexIn(b, paths[0])] else []) + Cutters(b, paths[1..])
  }

  predicate Names(b: seq<string>, p: seq<string>) {
    Enters(b, p) && |p| == |b| + 1
  }

  predicate Leaves(items: seq<Json>) {
    forall x :: x in items ==> x.Num?
  }

  lemma {:induction false} DropAllCuts(b: seq<string>, items: seq<Json>, paths: seq<seq<string>>)
    requires Beside(b, paths) && Leaves(items)
    ensures DropAll(Below(b, Arr(items)), paths) == Below(b, Arr(PayloadFilter.Cuts(items, Cutters(b, paths))))
    decreases |paths|
  {
    if paths != [] {
      var p := paths[0];
      DropBelow(b, items, p);
      var rest := Cutters(b, paths[1..]);
      if Names(b, p) {
        assert Inside(b, p) == [];
        assert ([IndexIn(b, p)] + rest)[1..] == rest;
        DropAllCuts(b, PayloadFilter.Cut(items, IndexIn(b, p)), paths[1..]);
      } else {
        if Enters(b, p) && IndexIn(b, p) < |items| {
          assert items[IndexIn(b, p)] in items;
          assert items[IndexIn(b, p) := items[IndexIn(b, p)]] == items;
        }
        assert [] + rest == rest;
        DropAllCuts(b, items, paths[1..]);
      }
    }
  }

  lemma {:induction false} MarksOfLeaf(j: Json, insides: seq<seq<string>>)
    requires j.Num?
    ensures Marks(Scalar(j), insides) == if [] in insides then Gone else Scalar(j)
    decreases |insides|
  {
    if insides != [] {
      assert insides == [insides[0]] + insides[1..];
      if insides[0] == [] {
        MarksOfGone(insides[1..]);
      } else {
        MarksOfLeaf(j, insides[1..]);
      }
    }
  }

  lemma {:induction false} MarksOfGone(insides: seq<seq<string>>)
    ensures Marks(Gone, insides) == Gone
    decreases |insides|
  {
    if insides != [] {
      MarksOfGone(insides[1..]);
    }
  }

  lemma {:induction false} CutIsNamed(b: seq<string>, n: nat, paths: seq<seq<string>>)
    ensures [] in Insides(b, n, paths) <==> n in Cutters(b, paths)
    decreases |paths|
  {
    if paths != [] {
      CutIsNamed(b, n, paths[1..]);
    }
  }

  /** Sweeping an array with some items marked keeps the others. */
  lemma {:induction false} SweepKept(items: seq<Json>, marked: seq<Marked>, dropped: set<nat>)
    requires |marked| == |items|
    requires forall i :: 0 <= i < |items| ==> marked[i] == if i in dropped then Gone else Whole(items[i])
    ensures SweepAll(marked) == PayloadFilter.Keep(items, dropped)
  {
    if items != [] {
      var n := |items| - 1;
      SweepKept(items[..n], marked[..n], dropped);
      SweepSplit(marked[..n], [marked[n]]);
      assert marked == marked[..n] + [marked[n]];
      SweepOne(marked[n]);
      SweepWhole(items[n]);
    }
  }

  /** What the paths name in a body that holds one array of leaves. */
  lemma NamedLeaves(b: seq<string>, items: seq<Json>, paths: seq<seq<string>>)
    requires Beside(b, paths) && Leaves(items)
    ensures Sweep(Marks(Whole(Below(b, Arr(items))), paths)) ==
            Below(b, Arr(PayloadFilter.Keep(items, PayloadFilter.Named(Cutters(b, paths)))))
  {
    var marked := SweptArray(b, items, paths);
    var dropped := PayloadFilter.Named(Cutters(b, paths));
    forall i | 0 <= i < |items| ensures marked[i] == if i in dropped then Gone else Whole(items[i]) {
      assert items[i] in items;
      MarksOfLeaf(items[i], Insides(b, i, paths));
      CutIsNamed(b, i, paths);
    }
    SweepKept(items, marked, dropped);
  }

  /** Where deleting is exact, the items of each array are deleted from the last to the first. */
  lemma CuttersDecrease(b: seq<string>, paths: seq<seq<string>>)
    requires Beside(b, paths) && forall j :: ExactOn(j, paths)
    ensures PayloadFilter.Decreasing(Cutters(b, paths))
  {
    var ns := Cutters(b, paths);
    forall s: seq<nat> ensures PayloadFilter.Cuts(s, ns) == PayloadFilter.Keep(s, PayloadFilter.Named(ns)) {
      var items := PayloadFilter.Lift(s);
      assert ExactOn(Below(b, Arr(items)), paths);
      DropAllCuts(b, items, paths);
      NamedLeaves(b, items, paths);
      var cut, kept := PayloadFilter.Cuts(items, ns), PayloadFilter.Keep(items, PayloadFilter.Named(ns));
      BelowInjective(b, Arr(cut), Arr(kept));
      PayloadFilter.LiftCuts(s, ns);
      PayloadFilter.LiftKeep(s, PayloadFilter.Named(ns));
      PayloadFilter.LiftInjective(
        PayloadFilter.Cuts(s, ns), PayloadFilter.Keep(s, PayloadFilter.Named(ns)));
    }
    PayloadFilter.ExactIffDecreasing(ns);
  }

  lemma {:induction false} CutterIsIn(b: seq<string>, paths: seq<seq<string>>, i: nat)
    requires i < |paths| && Names(b, paths[i])
    ensures IndexIn(b, paths[i]) in Cutters(b, paths)
  {
    if i > 0 {
      CutterIsIn(b, paths[1..], i - 1);
    }
  }

  lemma {:induction false} CuttersDescend(b: seq<string>, paths: seq<seq<string>>, i: nat, j: nat)
    requires i < j < |paths| && Names(b, paths[i]) && Names(b, paths[j])
    requires PayloadFilter.Decreasing(Cutters(b, paths))
    ensures IndexIn(b, paths[i]) > IndexIn(b, paths[j])
    decreases i
  {
    var ns, rest := Cutters(b, paths), Cutters(b, paths[1..]);
    if i == 0 {
      CutterIsIn(b, paths[1..], j - 1);
      var k :| 0 <= k < |rest| && rest[k] == IndexIn(b, paths[j]);
      assert ns[0] > ns[k + 1];
    } else {
      var n := |ns| - |rest|;
      assert forall k :: 0 <= k < |rest| ==> rest[k] == ns[k + n];
      CuttersDescend(b, paths[1..], i - 1, j - 1);
    }
  }

  // ---- what hides a node ----

  /** A chain of objects down to `p`, or to a mark on the way. */
  predicate Chain(t: Marked, p: seq<string>)
    decreases |p|
  {
    p == [] || t.Gone? || (t.Members? && p[0] in t.members && Chain(t.members[p[0]], p[1..]))
  }

  /** A mark at `p` or on the way to it. */
  predicate Hidden(t: Marked, p: seq<string>)
    decreases |p|
  {
    t.Gone? || (p != [] && t.Members? && (p[0] !in t.members || Hidden(t.members[p[0]], p[1..])))
  }

  lemma {:induction false} MarkKeepsChain(t: Marked, p: seq<string>, q: seq<string>)
    requires Chain(t, p)
    ensures Chain(Mark(t, q), p)
    ensures Hidden(t, p) || q == p ==> Hidden(Mark(t, q), p)
    decreases |p|
  {
    if p != [] && q != [] && t.Members? && p[0] == q[0] {
      MarkKeepsChain(t.members[p[0]], p[1..], q[1..]);
      assert q == p ==> q[1..] == p[1..];
    }
  }

  lemma {:induction false} MarksHide(t: Marked, p: seq<string>, qs: seq<seq<string>>)
    requires Chain(t, p) && (Hidden(t, p) || p in qs)
    ensures Hidden(Marks(t, qs), p)
    decreases |qs|
  {
    if qs != [] {
      assert qs == [qs[0]] + qs[1..];
      MarkKeepsChain(t, p, qs[0]);
      MarksHide(Mark(t, qs[0]), p, qs[1..]);
    }
  }

  lemma {:induction false} MarksStay(t: Marked, qs: seq<seq<string>>)
    requires !t.Gone? && [] !in qs
    ensures !Marks(t, qs).Gone?
    decreases |qs|
  {
    if qs != [] {
      assert qs == [qs[0]] + qs[1..];
      MarkedStays(t, qs[0]);
      MarksStay(Mark(t, qs[0]), qs[1..]);
    }
  }

  lemma {:induction false} HiddenIsUnseen(t: Marked, p: seq<string>)
    requires Hidden(t, p) && !t.Gone?
    ensures Get(Sweep(t), p).None?
    decreases |p|
  {
    if p[0] in t.members && !t.members[p[0]].Gone? {
      HiddenIsUnseen(t.members[p[0]], p[1..]);
    }
  }

  /** The item observed: something to be deleted at `rest`. */
  function Witness(rest: seq<string>): Json {
    Below(rest, Null)
  }

  lemma {:induction false} WitnessIsChain(rest: seq<string>)
    ensures Chain(Whole(Witness(rest)), rest) && !Whole(Witness(rest)).Gone?
    ensures Get(Witness(rest), rest) == Some(Null)
  {
    if rest != [] {
      WitnessIsChain(rest[1..]);
    }
  }

  lemma {:induction false} WitnessIsDeaf(rest: seq<string>, inside: seq<string>)
    requires inside != [] && !(inside <= rest)
    ensures Drop(Witness(rest), inside) == Witness(rest)
    decreases |rest|
  {
    if rest != [] && inside[0] == rest[0] {
      assert inside == [rest[0]] + inside[1..] && rest == [rest[0]] + rest[1..];
      WitnessIsDeaf(rest[1..], inside[1..]);
      var child := Witness(rest[1..]);
      assert map[rest[0] := child][rest[0] := child] == map[rest[0] := child];
    }
  }

  // ---- the exact condition ----

  /** Numbers that meet are spelt alike. */
  predicate OneSpelling(p: seq<string>, q: seq<string>) {
    forall k :: 0 <= k < |p| && k < |q| && SameKey(p[k], q[k]) ==> p[k] == q[k]
  }

  /** No path is repeated or inside what another names, and each index is spelt in one way. */
  ghost predicate Tidy(paths: seq<seq<string>>) {
    NonEmpty(paths) && forall i, j :: TidyPair(paths, i, j)
  }

  predicate TidyPair(paths: seq<seq<string>>, i: int, j: int) {
    0 <= i < |paths| && 0 <= j < |paths| ==>
      OneSpelling(paths[i], paths[j]) && (i != j ==> !(paths[i] <= paths[j]))
  }

  /** Path `j` is meant for the inside of an item that an earlier deletion has moved. */
  predicate Moved(b: seq<string>, paths: seq<seq<string>>, j: nat) {
    && j < |paths| && Enters(b, paths[j]) && |paths[j]| > |b| + 1
    && exists i :: 0 <= i < j && Names(b, paths[i]) && IndexIn(b, paths[i]) <= IndexIn(b, paths[j])
  }

  lemma PrefixFrom(b: seq<string>, p: seq<string>, q: seq<string>)
    requires Enters(b, p) && Enters(b, q) && OneSpelling(p, q) && IndexIn(b, p) == IndexIn(b, q)
    requires Inside(b, p) <= Inside(b, q)
    ensures p <= q
  {
    assert SameKey(p[|b|], q[|b|]);
    assert p == b + [p[|b|]] + Inside(b, p) && q == b + [q[|b|]] + Inside(b, q);
  }

  /** The item a path goes into is itself not named. */
  lemma NotNamed(b: seq<string>, paths: seq<seq<string>>, i: nat, j: nat)
    requires Tidy(paths) && i < |paths| && j < |paths|
    requires Names(b, paths[i]) && Enters(b, paths[j]) && |paths[j]| > |b| + 1
    ensures IndexIn(b, paths[i]) != IndexIn(b, paths[j])
  {
    if IndexIn(b, paths[i]) == IndexIn(b, paths[j]) {
      assert TidyPair(paths, i, j);
      PrefixFrom(b, paths[i], paths[j]);
    }
  }

  predicate EndsIn(items: seq<Json>, x: Json) {
    items != [] && items[|items| - 1] == x
  }

  /** What is known when `t` paths have been deleted from an array that ends at the item path `j` is meant for: `c`
      items before it are gone, the lowest of index `low`, and it is still `x`. */
  ghost predicate Watching(
      b: seq<string>, paths: seq<seq<string>>, j: nat, t: nat, items: seq<Json>, c: nat, low: nat, x: Json)
    requires j < |paths| && Enters(b, paths[j])
  {
    var m := IndexIn(b, paths[j]);
    && t <= |paths| && c + low <= m && |items| == m + 1 - c
    && items[|items| - 1] == x
    && (c == 0 ==> low == m)
    && (c > 0 ==> exists i :: 0 <= i < t && Names(b, paths[i]) && IndexIn(b, paths[i]) == low)
    && (forall i :: 0 <= i < t && Names(b, paths[i]) && IndexIn(b, paths[i]) < m ==> c > 0)
  }

  predicate SmallerThan(b: seq<string>, p: seq<string>, q: seq<string>)
    requires Enters(b, q)
  {
    Enters(b, p) && |p| <= |q| && IndexIn(b, p) < IndexIn(b, q)
  }

  /** No path that is smaller than `j` is moved. */
  ghost predicate NoneBelow(b: seq<string>, paths: seq<seq<string>>, j: nat)
    requires j < |paths| && Enters(b, paths[j])
  {
    forall k :: 0 <= k < |paths| && SmallerThan(b, paths[k], paths[j]) ==> !Moved(b, paths, k)
  }

  /** A path into an item misses the one that path `j` is meant for. */
  lemma MissesLast(
      b: seq<string>, paths: seq<seq<string>>, j: nat, t: nat, items: seq<Json>, c: nat, low: nat, x: Json)
    requires Tidy(paths) && Moved(b, paths, j) && NoneBelow(b, paths, j)
    requires t < |paths| && Watching(b, paths, j, t, items, c, low, x)
    requires Enters(b, paths[t]) && |paths[t]| > |b| + 1 && IndexIn(b, paths[t]) == |items| - 1
    ensures !(Inside(b, paths[t]) <= Inside(b, paths[j]))
  {
    if Inside(b, paths[t]) <= Inside(b, paths[j]) {
      if c > 0 {
        assert Moved(b, paths, t);
      } else if t == j {
        var i :| 0 <= i < j && Names(b, paths[i]) && IndexIn(b, paths[i]) <= IndexIn(b, paths[j]);
        NotNamed(b, paths, i, j);
      } else {
        assert TidyPair(paths, t, j);
        PrefixFrom(b, paths[t], paths[j]);
      }
    }
  }

  /** A deleted item lies before the one that path `j` is meant for. */
  lemma CutsBefore(
      b: seq<string>, paths: seq<seq<string>>, j: nat, t: nat, items: seq<Json>, c: nat, low: nat, x: Json)
    requires Tidy(paths) && PayloadFilter.Decreasing(Cutters(b, paths))
    requires j < |paths| && Enters(b, paths[j]) && |paths[j]| > |b| + 1
    requires t < |paths| && Watching(b, paths, j, t, items, c, low, x) && Names(b, paths[t])
    ensures IndexIn(b, paths[t]) > IndexIn(b, paths[j]) || IndexIn(b, paths[t]) < low
  {
    NotNamed(b, paths, t, j);
    if c > 0 {
      var i :| 0 <= i < t && Names(b, paths[i]) && IndexIn(b, paths[i]) == low;
      CuttersDescend(b, paths, i, t);
    }
  }

  lemma LastStaysOnce(
      b: seq<string>, paths: seq<seq<string>>, j: nat, t: nat, items: seq<Json>, c: nat, low: nat, x: Json)
    returns (next: seq<Json>, c': nat, low': nat)
    requires Tidy(paths) && PayloadFilter.Decreasing(Cutters(b, paths))
    requires Moved(b, paths, j) && NoneBelow(b, paths, j) && Watching(b, paths, j, t, items, c, low, x)
    requires x == Witness(Inside(b, paths[j]))
    requires t < |paths| && Enters(b, paths[t])
    ensures next == DropIn(items, IndexIn(b, paths[t]), Inside(b, paths[t]))
    ensures Watching(b, paths, j, t + 1, next, c', low', x)
  {
    var p := paths[t];
    next, c', low' := DropIn(items, IndexIn(b, p), Inside(b, p)), c, low;
    if Names(b, p) {
      CutsBefore(b, paths, j, t, items, c, low, x);
      if IndexIn(b, p) < low {
        c', low' := c + 1, IndexIn(b, p);
        WatchCut(b, paths, j, t, items, c, low, x);
      } else {
        WatchBeyond(b, paths, j, t, items, c, low, x);
      }
    } else {
      if IndexIn(b, p) == |items| - 1 {
        MissesLast(b, paths, j, t, items, c, low, x);
        WitnessIsDeaf(Inside(b, paths[j]), Inside(b, p));
      }
      WatchInside(b, paths, j, t, items, c, low, x);
    }
  }

  lemma DropInside(items: seq<Json>, n: nat, inside: seq<string>)
    requires items != [] && inside != []
    requires n == |items| - 1 ==> Drop(items[n], inside) == items[n]
    ensures
      var next := DropIn(items, n, inside);
      |next| == |items| && next[|next| - 1] == items[|items| - 1]
  {
  }

  lemma WatchBeyond(b: seq<string>, paths: seq<seq<string>>, j: nat, t: nat, items: seq<Json>, c: nat, low: nat, x: Json)
    requires j < |paths| && Enters(b, paths[j]) && Watching(b, paths, j, t, items, c, low, x)
    requires t < |paths| && Names(b, paths[t]) && IndexIn(b, paths[t]) > IndexIn(b, paths[j])
    ensures Watching(b, paths, j, t + 1, DropIn(items, IndexIn(b, paths[t]), Inside(b, paths[t])), c, low, x)
  {
    assert DropIn(items, IndexIn(b, paths[t]), Inside(b, paths[t])) == items;
  }

  lemma WatchCut(b: seq<string>, paths: seq<seq<string>>, j: nat, t: nat, items: seq<Json>, c: nat, low: nat, x: Json)
    requires j < |paths| && Enters(b, paths[j]) && Watching(b, paths, j, t, items, c, low, x)
    requires t < |paths| && Names(b, paths[t]) && IndexIn(b, paths[t]) < low
    ensures
      Watching(b, paths, j, t + 1, DropIn(items, IndexIn(b, paths[t]), Inside(b, paths[t])), c + 1, IndexIn(b, paths[t]), x)
  {
    assert Inside(b, paths[t]) == [];
  }

  lemma WatchInside(b: seq<string>, paths: seq<seq<string>>, j: nat, t: nat, items: seq<Json>, c: nat, low: nat, x: Json)
    requires j < |paths| && Enters(b, paths[j]) && Watching(b, paths, j, t, items, c, low, x)
    requires t < |paths| && Enters(b, paths[t]) && !Names(b, paths[t])
    requires IndexIn(b, paths[t]) == |items| - 1 ==> Drop(items[|items| - 1], Inside(b, paths[t])) == items[|items| - 1]
    ensures Watching(b, paths, j, t + 1, DropIn(items, IndexIn(b, paths[t]), Inside(b, paths[t])), c, low, x)
  {
    assert Inside(b, paths[t]) != [];
    DropInside(items, IndexIn(b, paths[t]), Inside(b, paths[t]));
  }

  lemma DropAllNone(j: Json, paths: seq<seq<string>>)
    requires NonEmpty(paths)
    ensures DropAll(j, paths[|paths|..]) == j
  {
  }

  lemma DropAllFrom(j: Json, next: Json, out: Json, paths: seq<seq<string>>, t: nat)
    requires NonEmpty(paths) && t < |paths|
    requires Drop(j, paths[t]) == next && DropAll(next, paths[t + 1..]) == out
    ensures DropAll(j, paths[t..]) == out
  {
    assert paths[t..][0] == paths[t] && paths[t..][1..] == paths[t + 1..];
  }

  lemma WatchOther(b: seq<string>, paths: seq<seq<string>>, j: nat, t: nat, items: seq<Json>, c: nat, low: nat, x: Json)
    requires j < |paths| && Enters(b, paths[j]) && Watching(b, paths, j, t, items, c, low, x)
    requires t < |paths| && !Enters(b, paths[t])
    ensures Watching(b, paths, j, t + 1, items, c, low, x)
  {
  }

  lemma WatchEnd(b: seq<string>, paths: seq<seq<string>>, j: nat, t: nat, items: seq<Json>, c: nat, low: nat, x: Json)
    requires j < |paths| && Enters(b, paths[j]) && Watching(b, paths, j, t, items, c, low, x)
    ensures EndsIn(items, x)
  {
  }

  lemma LastStaysNext(
      b: seq<string>, paths: seq<seq<string>>, j: nat, t: nat, items: seq<Json>, c: nat, low: nat, x: Json)
    returns (next: seq<Json>, c': nat, low': nat)
    requires Tidy(paths) && Beside(b, paths) && PayloadFilter.Decreasing(Cutters(b, paths))
    requires Moved(b, paths, j) && NoneBelow(b, paths, j) && Watching(b, paths, j, t, items, c, low, x)
    requires x == Witness(Inside(b, paths[j])) && t < |paths|
    ensures Drop(Below(b, Arr(items)), paths[t]) == Below(b, Arr(next))
    ensures Watching(b, paths, j, t + 1, next, c', low', x)
  {
    DropBelow(b, items, paths[t]);
    next, c', low' := items, c, low;
    if Enters(b, paths[t]) {
      next, c', low' := LastStaysOnce(b, paths, j, t, items, c, low, x);
    } else {
      WatchOther(b, paths, j, t, items, c, low, x);
    }
  }

  /** Whatever is deleted, the last item stays as it was. */
  lemma {:induction false} LastStays(
      b: seq<string>, paths: seq<seq<string>>, j: nat, t: nat, items: seq<Json>, c: nat, low: nat, x: Json)
    returns (out: seq<Json>)
    requires Tidy(paths) && Beside(b, paths) && PayloadFilter.Decreasing(Cutters(b, paths))
    requires Moved(b, paths, j) && NoneBelow(b, paths, j) && Watching(b, paths, j, t, items, c, low, x)
    requires x == Witness(Inside(b, paths[j]))
    ensures DropAll(Below(b, Arr(items)), paths[t..]) == Below(b, Arr(out))
    ensures EndsIn(out, x)
    decreases |paths| - t
  {
    if t == |paths| {
      out := items;
      DropAllNone(Below(b, Arr(items)), paths);
      WatchEnd(b, paths, j, t, items, c, low, x);
    } else {
      var next, c', low' := LastStaysNext(b, paths, j, t, items, c, low, x);
      out := LastStays(b, paths, j, t + 1, next, c', low', x);
      DropAllFrom(Below(b, Arr(items)), Below(b, Arr(next)), Below(b, Arr(out)), paths, t);
    }
  }

  lemma {:induction false} CutterComesFrom(b: seq<string>, paths: seq<seq<string>>, n: nat) returns (i: nat)
    requires n in Cutters(b, paths)
    ensures i < |paths| && Names(b, paths[i]) && IndexIn(b, paths[i]) == n
  {
    if Names(b, paths[0]) && IndexIn(b, paths[0]) == n {
      i := 0;
    } else {
      i := CutterComesFrom(b, paths[1..], n);
      i := i + 1;
    }
  }

  lemma {:induction false} InsideIsIn(b: seq<string>, paths: seq<seq<string>>, j: nat)
    requires j < |paths| && Enters(b, paths[j])
    ensures Inside(b, paths[j]) in Insides(b, IndexIn(b, paths[j]), paths)
  {
    if j > 0 {
      InsideIsIn(b, paths[1..], j - 1);
    }
  }

  /** The last of some marked items, when it is itself not marked, is last after the sweep. */
  lemma LastSwept(items: seq<Marked>)
    requires items != [] && !items[|items| - 1].Gone?
    ensures EndsIn(SweepAll(items), Sweep(items[|items| - 1]))
  {
    var n := |items| - 1;
    assert items == items[..n] + [items[n]];
    SweepSplit(items[..n], [items[n]]);
    SweepOne(items[n]);
  }

  /** The item path `j` goes into stays and loses what the path names. */
  lemma WitnessLoses(b: seq<string>, paths: seq<seq<string>>, j: nat, x: Json, t: Marked)
    requires Tidy(paths) && j < |paths| && Enters(b, paths[j]) && |paths[j]| > |b| + 1
    requires x == Witness(Inside(b, paths[j]))
    requires t == Marks(Whole(x), Insides(b, IndexIn(b, paths[j]), paths))
    ensures !t.Gone? && Sweep(t) != x
  {
    var m, rest := IndexIn(b, paths[j]), Inside(b, paths[j]);
    var insides := Insides(b, m, paths);
    WitnessIsChain(rest);
    InsideIsIn(b, paths, j);
    MarksHide(Whole(x), rest, insides);
    CutIsNamed(b, m, paths);
    if [] in insides {
      var i := CutterComesFrom(b, paths, m);
      NotNamed(b, paths, i, j);
    }
    MarksStay(Whole(x), insides);
    HiddenIsUnseen(t, rest);
  }

  /** What the paths name in an array that ends at the item path `j` goes into: that item loses something. */
  lemma LastNamed(b: seq<string>, paths: seq<seq<string>>, j: nat, items: seq<Json>, x: Json)
    returns (kept: seq<Json>, y: Json)
    requires Tidy(paths) && Beside(b, paths) && j < |paths| && Enters(b, paths[j]) && |paths[j]| > |b| + 1
    requires x == Witness(Inside(b, paths[j])) && |items| == IndexIn(b, paths[j]) + 1 && EndsIn(items, x)
    ensures Sweep(Marks(Whole(Below(b, Arr(items))), paths)) == Below(b, Arr(kept))
    ensures EndsIn(kept, y) && y != x
  {
    var marked := SweptArray(b, items, paths);
    var t := marked[|items| - 1];
    WitnessLoses(b, paths, j, x, t);
    LastSwept(marked);
    kept, y := SweepAll(marked), Sweep(t);
  }

  /** Where deleting is exact, nothing inside an item is deleted after that item was moved. */
  lemma {:induction false} NoneMoved(b: seq<string>, paths: seq<seq<string>>, j: nat)
    requires Tidy(paths) && Beside(b, paths) && j < |paths| && Enters(b, paths[j])
    requires forall d :: ExactOn(d, paths)
    ensures !Moved(b, paths, j)
    decreases IndexIn(b, paths[j])
  {
    if Moved(b, paths, j) {
      forall k | 0 <= k < |paths| && SmallerThan(b, paths[k], paths[j]) ensures !Moved(b, paths, k) {
        NoneMoved(b, paths, k);
      }
      var m, x := IndexIn(b, paths[j]), Witness(Inside(b, paths[j]));
      var items := seq(m + 1, i => x);
      CuttersDecrease(b, paths);
      var out := LastStays(b, paths, j, 0, items, 0, m, x);
      var kept, y := LastNamed(b, paths, j, items, x);
      assert paths[0..] == paths;
      assert ExactOn(Below(b, Arr(items)), paths);
      BelowInjective(b, Arr(out), Arr(kept));
    }
  }

  /** A path that shifts another shares the way to one array with it. */
  lemma {:induction false} ShiftsAt(p: seq<string>, q: seq<string>) returns (b: seq<string>)
    requires Shifts(p, q) && OneSpelling(p, q)
    ensures Names(b, p) && Enters(b, q) && IndexIn(b, p) <= IndexIn(b, q)
  {
    if |p| == 1 {
      b := [];
    } else {
      assert forall k :: 0 <= k < |p[1..]| ==> p[1..][k] == p[k + 1];
      assert forall k :: 0 <= k < |q[1..]| ==> q[1..][k] == q[k + 1];
      b := ShiftsAt(p[1..], q[1..]);
      b := [p[0]] + b;
      assert p == [p[0]] + p[1..] && q == [q[0]] + q[1..];
    }
  }

  lemma ExactIsSafe(paths: seq<seq<string>>, i: nat, j: nat)
    requires Tidy(paths) && forall d :: ExactOn(d, paths)
    requires i < j < |paths|
    ensures !Shifts(paths[i], paths[j])
  {
    if Shifts(paths[i], paths[j]) {
      assert TidyPair(paths, i, j);
      var b := ShiftsAt(paths[i], paths[j]);
      forall k | 0 <= k < |paths| ensures !(paths[k] <= b) {
        assert TidyPair(paths, k, i);
      }
      if |paths[j]| == |b| + 1 {
        CuttersDecrease(b, paths);
        CuttersDescend(b, paths, i, j);
      } else {
        NoneMoved(b, paths, j);
      }
    }
  }

  // ---- the filter ----

  /** No path is repeated or inside what another names, and indices that meet are spelt alike. */
  predicate Apart(paths: seq<string>) {
    && (forall i, j :: 0 <= i < j < |paths| ==> paths[i] != paths[j])
    && (forall p, q :: p in paths && q in paths ==> !(Keys(p) < Keys(q)) && OneSpelling(Keys(p), Keys(q)))
  }

  lemma KeysInjective(p: string, q: string)
    requires Keys(p) == Keys(q)
    ensures p == q
  {
    JoinSplit(p, '.');
    JoinSplit(q, '.');
  }

  lemma OrderIsTidy(paths: seq<string>)
    requires Apart(paths)
    ensures Tidy(KeyPaths(Order(paths)))
  {
    var order := Order(paths);
    OrderDistinct(paths);
    forall i, j ensures TidyPair(KeyPaths(order), i, j) {
      if 0 <= i < |order| && 0 <= j < |order| {
        OrderMember(paths, order[i]);
        OrderMember(paths, order[j]);
        if i != j && Keys(order[i]) == Keys(order[j]) {
          KeysInjective(order[i], order[j]);
        }
      }
    }
  }

  lemma SafeIsExact(paths: seq<string>, d: Json)
    requires Safe(paths)
    ensures ExactOn(d, KeyPaths(paths))
  {
    SweepWhole(d);
    forall p | p in paths ensures Clear(Whole(d), Keys(p)) {
      WholeIsClear(d, Keys(p));
    }
    DropsAreSweep(Whole(d), paths);
    DropsAll(d, paths);
  }

  /** The filter on object keys and items of any arrays, also arrays within arrays: it takes out of every body exactly
      what its paths name if and only if, in reversed string order, no deletion moves what a later path names. */
  lemma FilterExactIffSafe(paths: seq<string>)
    requires Apart(paths)
    ensures (forall d :: ExactOn(d, KeyPaths(Order(paths)))) <==> Safe(Order(paths))
  {
    var order := Order(paths);
    if forall d :: ExactOn(d, KeyPaths(order)) {
      OrderIsTidy(paths);
      forall i, j | 0 <= i < j < |order| ensures !Shifts(Keys(order[i]), Keys(order[j])) {
        ExactIsSafe(KeyPaths(order), i, j);
      }
    }
    if Safe(order) {
      forall d ensures ExactOn(d, KeyPaths(order)) {
        SafeIsExact(order, d);
      }
    }
  }
}
