/** applyFilter on whole bodies: when deleting one path after another removes exactly what the paths name. */
module PayloadSweep {
  import opened Wrappers
  import opened Strings
  import opened JsonTree
  import opened Config
  import opened Payload
  import opened Lists
  import Sorting
  import PayloadFilter

  /** A body in which deleted nodes are marked instead of taken out, so that nothing shifts. */
  datatype Marked =
    | Gone
    | Scalar(j: Json)
    | Items(items: seq<Marked>)
    | Members(members: map<string, Marked>)

  function Whole(j: Json): Marked {
    match j
    case Arr(items) => Items(seq(|items|, i requires 0 <= i < |items| => Whole(items[i])))
    case Obj(fields) => Members(map k | k in fields :: Whole(fields[k]))
    case _ => Scalar(j)
  }

  /** Marking the node at a path of the original body. */
  function Mark(t: Marked, keys: seq<string>): Marked
    decreases |keys|
  {
    if keys == [] then Gone
    else
      match t
      case Items(items) =>
        if Numeric(keys[0]) && Number(keys[0]) < |items| then
          Items(items[Number(keys[0]) := Mark(items[Number(keys[0])], keys[1..])])
        else t
      case Members(members) =>
        if keys[0] in members then Members(members[keys[0] := Mark(members[keys[0]], keys[1..])]) else t
      case _ => t
  }

  function Marks(t: Marked, paths: seq<seq<string>>): Marked
    decreases |paths|
  {
    if paths == [] then t else Marks(Mark(t, paths[0]), paths[1..])
  }

  /** Taking out every marked node at once. */
  function Sweep(t: Marked): Json
    decreases t
  {
    match t
    case Gone => Null
    case Scalar(j) => j
    case Items(items) => Arr(SweepAll(items))
    case Members(members) => Obj(map k | k in members && !members[k].Gone? :: Sweep(members[k]))
  }

  function SweepAll(items: seq<Marked>): seq<Json>
    decreases items
  {
    if items == [] then []
    else (if items[0].Gone? then [] else [Sweep(items[0])]) + SweepAll(items[1..])
  }

  lemma {:induction false} SweepWhole(j: Json)
    ensures Sweep(Whole(j)) == j && !Whole(j).Gone?
    decreases j
  {
    match j
    case Arr(items) => SweepWholeItems(j, items);
    case Obj(fields) =>
      forall k | k in fields ensures Sweep(Whole(fields[k])) == fields[k] && !Whole(fields[k]).Gone? {
        SweepWhole(fields[k]);
      }
    case _ =>
  }

  function WholeItems(items: seq<Json>): (r: seq<Marked>)
    ensures |r| == |items| && forall i :: 0 <= i < |items| ==> r[i] == Whole(items[i])
  {
    seq(|items|, i requires 0 <= i < |items| => Whole(items[i]))
  }

  lemma {:induction false} SweepWholeItems(j: Json, items: seq<Json>)
    requires forall i :: 0 <= i < |items| ==> items[i] < j
    ensures SweepAll(WholeItems(items)) == items
    decreases j, |items|
  {
    if items != [] {
      SweepWhole(items[0]);
      assert forall i :: 0 <= i < |items[1..]| ==> items[1..][i] == items[i + 1];
      SweepWholeItems(j, items[1..]);
      var whole := WholeItems(items);
      assert whole[0] == Whole(items[0]) && whole[1..] == WholeItems(items[1..]);
      assert items == [items[0]] + items[1..];
    }
  }

  // ---- one deletion ----

  /** The way along a path has no marked item at or before the indices it uses. */
  predicate Clear(t: Marked, keys: seq<string>)
    decreases |keys|
  {
    keys == [] ||
    match t
    case Items(items) =>
      Numeric(keys[0]) && Number(keys[0]) < |items| ==>
        && (forall i :: 0 <= i <= Number(keys[0]) ==> !items[i].Gone?)
        && Clear(items[Number(keys[0])], keys[1..])
    case Members(members) => keys[0] in members ==> Clear(members[keys[0]], keys[1..])
    case Scalar(j) => !j.Arr? && !j.Obj?
    case Gone => true
  }

  lemma {:induction false} SweepSplit(a: seq<Marked>, b: seq<Marked>)
    ensures SweepAll(a + b) == SweepAll(a) + SweepAll(b)
    decreases |a|
  {
    if a == [] {
      assert a + b == b;
    } else {
      var all := a + b;
      assert all[0] == a[0] && all[1..] == a[1..] + b;
      SweepSplit(a[1..], b);
      Regroup(if a[0].Gone? then [] else [Sweep(a[0])], SweepAll(a[1..]), SweepAll(b));
    }
  }

  lemma {:induction false} SweepLength(items: seq<Marked>)
    ensures |SweepAll(items)| <= |items|
    ensures (forall i :: 0 <= i < |items| ==> !items[i].Gone?) ==> |SweepAll(items)| == |items|
  {
    if items != [] {
      SweepLength(items[1..]);
      assert forall i :: 0 < i < |items| ==> items[i] == items[1..][i - 1];
    }
  }

  lemma SweepOne(x: Marked)
    ensures SweepAll([x]) == if x.Gone? then [] else [Sweep(x)]
  {
    assert [x][1..] == [];
  }

  /** A swept array around the item at `n`, which and before which nothing is marked. */
  lemma SweepAround(items: seq<Marked>, n: nat)
    requires n < |items| && forall i :: 0 <= i < n ==> !items[i].Gone?
    ensures |SweepAll(items[..n])| == n
    ensures SweepAll(items) == SweepAll(items[..n]) + SweepAll([items[n]]) + SweepAll(items[n + 1..])
  {
    SweepLength(items[..n]);
    assert items == items[..n] + ([items[n]] + items[n + 1..]);
    SweepSplit(items[..n], [items[n]] + items[n + 1..]);
    SweepSplit([items[n]], items[n + 1..]);
  }

  lemma MarkedStays(t: Marked, keys: seq<string>)
    requires keys != []
    ensures Mark(t, keys).Gone? <==> t.Gone?
  {
  }

  /** Deleting along a clear path from the swept body is marking before the sweep. */
  lemma {:induction false} DropIsMark(t: Marked, keys: seq<string>)
    requires keys != [] && !t.Gone? && Clear(t, keys)
    ensures Drop(Sweep(t), keys) == Sweep(Mark(t, keys))
    decreases |keys|
  {
    match t
    case Items(items) => DropItem(items, keys);
    case Members(members) => DropMember(members, keys);
    case _ =>
  }

  /** An array before and after its item at `n` is replaced. */
  lemma SweepReplaced(items: seq<Marked>, n: nat, x: Marked)
    requires n < |items| && forall i :: 0 <= i <= n ==> !items[i].Gone?
    ensures |SweepAll(items[..n])| == n
    ensures SweepAll(items) == SweepAll(items[..n]) + [Sweep(items[n])] + SweepAll(items[n + 1..])
    ensures SweepAll(items[n := x]) ==
            SweepAll(items[..n]) + (if x.Gone? then [] else [Sweep(x)]) + SweepAll(items[n + 1..])
  {
    SweepAround(items, n);
    SweepAround(items[n := x], n);
    SweepOne(items[n]);
    SweepOne(x);
    assert items[n := x][..n] == items[..n] && items[n := x][n + 1..] == items[n + 1..];
  }

  lemma {:induction false} DropItem(items: seq<Marked>, keys: seq<string>)
    requires keys != [] && Clear(Items(items), keys)
    ensures Drop(Sweep(Items(items)), keys) == Sweep(Mark(Items(items), keys))
    decreases |keys|, 0
  {
    SweepLength(items);
    if Numeric(keys[0]) && Number(keys[0]) < |items| {
      var n := Number(keys[0]);
      SweepReplaced(items, n, Mark(items[n], keys[1..]));
      var front, back := SweepAll(items[..n]), SweepAll(items[n + 1..]);
      if |keys| > 1 {
        DropIsMark(items[n], keys[1..]);
        MarkedStays(items[n], keys[1..]);
        DropAround(front, Sweep(items[n]), back, keys);
      } else {
        assert keys[1..] == [] && front + [] == front;
        CutAround(front, Sweep(items[n]), back, keys);
      }
    }
  }

  lemma CutAround(front: seq<Json>, x: Json, back: seq<Json>, keys: seq<string>)
    requires |keys| == 1 && Numeric(keys[0]) && Number(keys[0]) == |front|
    ensures Drop(Arr(front + [x] + back), keys) == Arr(front + back)
  {
    var all := front + [x] + back;
    assert all[..|front|] == front && all[|front| + 1..] == back;
  }

  lemma DropAround(front: seq<Json>, x: Json, back: seq<Json>, keys: seq<string>)
    requires |keys| > 1 && Numeric(keys[0]) && Number(keys[0]) == |front|
    ensures Drop(Arr(front + [x] + back), keys) == Arr(front + [Drop(x, keys[1..])] + back)
  {
    var all := front + [x] + back;
    assert all[|front|] == x;
    assert all[|front| := Drop(x, keys[1..])] == front + [Drop(x, keys[1..])] + back;
    assert all[|front| := x] == all;
  }

  lemma {:induction false} DropMember(members: map<string, Marked>, keys: seq<string>)
    requires keys != [] && Clear(Members(members), keys)
    ensures Drop(Sweep(Members(members)), keys) == Sweep(Mark(Members(members), keys))
    decreases |keys|, 0
  {
    var k := keys[0];
    var fields := Sweep(Members(members)).fields;
    if k in members {
      var x := Mark(members[k], keys[1..]);
      var after := Sweep(Members(members[k := x])).fields;
      if members[k].Gone? {
        assert after == fields;
      } else if |keys| == 1 {
        assert keys[1..] == [];
        assert after == fields - {k};
      } else {
        DropIsMark(members[k], keys[1..]);
        MarkedStays(members[k], keys[1..]);
        assert after == fields[k := Sweep(x)];
        assert fields[k := fields[k]] == fields;
      }
    }
  }

  // ---- one deletion after another ----

  predicate SameKey(a: string, b: string) {
    a == b || (Numeric(a) && Numeric(b) && Number(a) == Number(b))
  }

  /** Deleting `p` first can move what `q` names: `p` is an item of an array, `q` the same item or a later one, or below
      such an item. */
  predicate Shifts(p: seq<string>, q: seq<string>) {
    && p != [] && q != []
    && if |p| == 1 then Numeric(p[0]) && Numeric(q[0]) && Number(p[0]) <= Number(q[0])
       else SameKey(p[0], q[0]) && Shifts(p[1..], q[1..])
  }

  lemma {:induction false} ClearStays(t: Marked, p: seq<string>, q: seq<string>)
    requires p != [] && Clear(t, q) && !Shifts(p, q)
    ensures Clear(Mark(t, p), q)
    decreases |p|
  {
    if q != [] {
      match t
      case Items(items) =>
        if Numeric(p[0]) && Number(p[0]) < |items| {
          ClearItems(items, p, q);
        }
      case Members(members) =>
        if p[0] in members && p[0] == q[0] && |p| > 1 {
          ClearStays(members[p[0]], p[1..], q[1..]);
        }
      case _ =>
    }
  }

  lemma {:induction false} ClearItems(items: seq<Marked>, p: seq<string>, q: seq<string>)
    requires p != [] && q != [] && Clear(Items(items), q) && !Shifts(p, q)
    requires Numeric(p[0]) && Number(p[0]) < |items|
    ensures Clear(Mark(Items(items), p), q)
    decreases |p|, 0
  {
    var n := Number(p[0]);
    var after := items[n := Mark(items[n], p[1..])];
    if Numeric(q[0]) && Number(q[0]) < |items| {
      var m := Number(q[0]);
      if |p| > 1 {
        MarkedStays(items[n], p[1..]);
        if m == n {
          ClearStays(items[n], p[1..], q[1..]);
        }
      }
      forall i | 0 <= i <= m ensures !after[i].Gone? {
      }
      assert Clear(after[m], q[1..]);
    }
  }

  function KeyPaths(paths: seq<string>): (r: seq<seq<string>>)
    ensures |r| == |paths| && forall i :: 0 <= i < |paths| ==> r[i] == Keys(paths[i])
  {
    seq(|paths|, i requires 0 <= i < |paths| => Keys(paths[i]))
  }

  /** No deletion moves what a later one names. */
  predicate Safe(paths: seq<string>) {
    forall a, b :: 0 <= a < b < |paths| ==> !Shifts(Keys(paths[a]), Keys(paths[b]))
  }

  /** In a safe order, deleting one path after another is taking out all of them at once. */
  lemma {:induction false} DropsAreSweep(t: Marked, paths: seq<string>)
    requires !t.Gone? && Safe(paths) && forall p :: p in paths ==> Clear(t, Keys(p))
    ensures Drops(Sweep(t), paths) == Sweep(Marks(t, KeyPaths(paths)))
    decreases |paths|
  {
    if paths != [] {
      var keys := Keys(paths[0]);
      assert paths[0] in paths;
      DropIsMark(t, keys);
      MarkedStays(t, keys);
      forall p | p in paths[1..] ensures Clear(Mark(t, keys), Keys(p)) {
        var i :| 0 <= i < |paths[1..]| && paths[1..][i] == p;
        assert paths[i + 1] == p && p in paths;
        ClearStays(t, keys, Keys(p));
      }
      SafeTail(paths);
      DropsAreSweep(Mark(t, keys), paths[1..]);
      assert KeyPaths(paths)[1..] == KeyPaths(paths[1..]);
    }
  }

  lemma SafeTail(paths: seq<string>)
    requires paths != [] && Safe(paths)
    ensures Safe(paths[1..])
  {
    forall a, b | 0 <= a < b < |paths[1..]| ensures !Shifts(Keys(paths[1..][a]), Keys(paths[1..][b])) {
      assert paths[1..][a] == paths[a + 1] && paths[1..][b] == paths[b + 1];
    }
  }

  lemma {:induction false} WholeIsClear(j: Json, keys: seq<string>)
    ensures Clear(Whole(j), keys)
    decreases |keys|
  {
    if keys != [] {
      match j
      case Arr(items) =>
        if Numeric(keys[0]) && Number(keys[0]) < |items| {
          WholeIsClear(items[Number(keys[0])], keys[1..]);
          forall i | 0 <= i <= Number(keys[0]) ensures !Whole(j).items[i].Gone? {
            SweepWhole(items[i]);
          }
        }
      case Obj(fields) =>
        if keys[0] in fields {
          WholeIsClear(fields[keys[0]], keys[1..]);
        }
      case _ =>
    }
  }

  /** The order the nodes are marked in does not matter. */
  lemma {:induction false} MarksCommute(t: Marked, p: seq<string>, q: seq<string>)
    ensures Mark(Mark(t, p), q) == Mark(Mark(t, q), p)
    decreases |p|
  {
    if p != [] && q != [] {
      match t
      case Items(items) =>
        if Numeric(p[0]) && Number(p[0]) < |items| && Numeric(q[0]) && Number(q[0]) < |items| {
          var n, m := Number(p[0]), Number(q[0]);
          if n == m {
            MarksCommute(items[n], p[1..], q[1..]);
          } else {
            var a, b := Mark(items[n], p[1..]), Mark(items[m], q[1..]);
            assert items[n := a][m := b] == items[m := b][n := a];
          }
        }
      case Members(members) =>
        if p[0] in members && q[0] in members {
          if p[0] == q[0] {
            MarksCommute(members[p[0]], p[1..], q[1..]);
            var a, b := Mark(members[p[0]], p[1..]), Mark(members[p[0]], q[1..]);
            assert members[p[0] := a][p[0] := Mark(a, q[1..])] == members[p[0] := b][p[0] := Mark(b, p[1..])];
          } else {
            var a, b := Mark(members[p[0]], p[1..]), Mark(members[q[0]], q[1..]);
            assert members[p[0] := a][q[0] := b] == members[q[0] := b][p[0] := a];
          }
        }
      case _ =>
    }
  }

  // ---- the order of the code ----

  /** Array indices that can meet have one width. */
  predicate SameWidths(p: seq<string>, q: seq<string>) {
    p == [] || q == [] ||
    ((Numeric(p[0]) && Numeric(q[0]) ==> |p[0]| == |q[0]|) && (p[0] == q[0] ==> SameWidths(p[1..], q[1..])))
  }

  lemma {:induction false} LessExtended(a: string, b: string, x: string)
    requires |a| == |b| && Less(a, b)
    ensures Less(a, b + x)
  {
    if a[0] == b[0] {
      LessExtended(a[1..], b[1..], x);
      assert (b + x)[1..] == b[1..] + x;
    }
  }

  lemma {:induction false} PrefixIsNotAfter(a: string, x: string)
    ensures a == a + x || Less(a, a + x)
  {
    if a != "" {
      PrefixIsNotAfter(a[1..], x);
      assert (a + x)[1..] == a[1..] + x;
    }
  }

  /** With equal widths, a path that would shift another comes before it in string order, or is it. */
  lemma {:induction false} ShiftingIsNotAfter(p: seq<string>, q: seq<string>)
    requires Shifts(p, q) && SameWidths(p, q)
    ensures Join(p, '.') == Join(q, '.') || Less(Join(p, '.'), Join(q, '.'))
    decreases |p|
  {
    if |p| == 1 {
      PayloadFilter.LessIsNumeric(p[0], q[0]);
      var x := if |q| == 1 then "" else "." + Join(q[1..], '.');
      assert Join(q, '.') == q[0] + x;
      if p[0] == q[0] {
        PrefixIsNotAfter(p[0], x);
      } else {
        LessExtended(p[0], q[0], x);
      }
    } else {
      if Numeric(p[0]) && Numeric(q[0]) {
        PayloadFilter.LessIsNumeric(p[0], q[0]);
      }
      assert p[0] == q[0];
      ShiftingIsNotAfter(p[1..], q[1..]);
      var pre := p[0] + ".";
      PayloadFilter.LessPrefix(pre, Join(p[1..], '.'), Join(q[1..], '.'));
      assert Join(p, '.') == pre + Join(p[1..], '.') && Join(q, '.') == pre + Join(q[1..], '.');
    }
  }

  /** Distinct paths whose meeting indices have one width. */
  predicate Aligned(paths: seq<string>) {
    && (forall i, j :: 0 <= i < j < |paths| ==> paths[i] != paths[j])
    && (forall p, q :: p in paths && q in paths ==> SameWidths(Keys(p), Keys(q)))
  }

  lemma AlignedIsSafe(paths: seq<string>)
    requires Aligned(paths)
    ensures Safe(Order(paths))
  {
    var order := Order(paths);
    OrderDistinct(paths);
    forall a, b | 0 <= a < b < |order| ensures !Shifts(Keys(order[a]), Keys(order[b])) {
      OrderMember(paths, order[a]);
      OrderMember(paths, order[b]);
      OrderDescends(paths, a, b);
      if Shifts(Keys(order[a]), Keys(order[b])) {
        ShiftingIsNotAfter(Keys(order[a]), Keys(order[b]));
        JoinSplit(order[a], '.');
        JoinSplit(order[b], '.');
        Sorting.LessTotal(order[a], order[b]);
      }
    }
  }

  /** The filter phase, over the paths of all matching rules together, object keys and array items alike: if they are
      distinct and their meeting indices have one width, it takes out exactly the nodes they name in the body as it
      was, and nothing else moves or goes. */
  lemma FilterTakesOutWhatIsNamed(
      matches: (seq<PayloadModelRule>, Json) -> bool, rules: seq<PayloadFilterRule>, j: Json)
    requires Aligned(FilterPaths(matches, rules, j))
    ensures Filtered(matches, rules, j) == Sweep(Marks(Whole(j), KeyPaths(Order(FilterPaths(matches, rules, j)))))
  {
    var paths := FilterPaths(matches, rules, j);
    AlignedIsSafe(paths);
    SweepWhole(j);
    forall p | p in Order(paths) ensures Clear(Whole(j), Keys(p)) {
      WholeIsClear(j, Keys(p));
    }
    DropsAreSweep(Whole(j), Order(paths));
  }
}
