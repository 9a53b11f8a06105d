/** internal/usage/usage.go: token counts aggregated by internal dimensions. */
module Usage {
  import opened Wrappers
  import opened Strings
  import Lists
  import Sorting

  datatype Key = Key(
    provider: string,
    protocol: string,
    aliasA: string,
    upstreamModel: string,
    internalModelID: string,
    sourceProtocol: string,
    targetProtocol: string,
    httpStatus: int)

  datatype Counts = Counts(
    input: int, output: int, cacheRead: int, cacheCreation: int, cached: int, reasoning: int, total: int)

  const NO_COUNTS := Counts(0, 0, 0, 0, 0, 0, 0)

  datatype Row = Row(requests: int, failures: int, tokens: Counts)

  const NO_ROW := Row(0, 0, NO_COUNTS)

  /** One recorded upstream attempt. */
  datatype Attempt = Attempt(key: Key, counts: Counts, failed: bool)

  datatype Item = Item(key: Key, row: Row)

  function Plus(a: Counts, b: Counts): Counts {
    Counts(a.input + b.input, a.output + b.output, a.cacheRead + b.cacheRead, a.cacheCreation + b.cacheCreation,
           a.cached + b.cached, a.reasoning + b.reasoning, a.total + b.total)
  }

  function PlusRow(a: Row, b: Row): Row {
    Row(a.requests + b.requests, a.failures + b.failures, Plus(a.tokens, b.tokens))
  }

  function RowOf(a: Attempt): Row {
    Row(1, if a.failed then 1 else 0, a.counts)
  }

  /** The sum over the attempts with this key. */
  function Sum(k: Key, history: seq<Attempt>): Row {
    if history == [] then NO_ROW
    else
      var front, last := history[..|history| - 1], history[|history| - 1];
      if last.key == k then PlusRow(Sum(k, front), RowOf(last)) else Sum(k, front)
  }

  /** The sum over all attempts. */
  function Total(history: seq<Attempt>): Row {
    if history == [] then NO_ROW else PlusRow(Total(history[..|history| - 1]), RowOf(history[|history| - 1]))
  }

  ghost predicate Occurs(k: Key, history: seq<Attempt>) {
    exists i :: 0 <= i < |history| && history[i].key == k
  }

  /** The rows are the exact sums, one for each key that occurs. */
  ghost predicate Exact(m: map<Key, Row>, history: seq<Attempt>) {
    && (forall k :: k in m <==> Occurs(k, history))
    && (forall k :: k in m ==> m[k] == Sum(k, history))
  }

  lemma {:induction false} SumAbsent(k: Key, history: seq<Attempt>)
    requires !Occurs(k, history)
    ensures Sum(k, history) == NO_ROW
  {
    if history != [] {
      SumAbsent(k, history[..|history| - 1]);
      assert history[|history| - 1].key != k;
    }
  }

  lemma ExactSnoc(m: map<Key, Row>, history: seq<Attempt>, a: Attempt)
    requires Exact(m, history)
    ensures Exact(m[a.key := PlusRow(if a.key in m then m[a.key] else NO_ROW, RowOf(a))], history + [a])
  {
    var after := m[a.key := PlusRow(if a.key in m then m[a.key] else NO_ROW, RowOf(a))];
    var all := history + [a];
    assert all[..|history|] == history;
    forall k ensures k in after <==> Occurs(k, all) {
      if k == a.key {
        assert all[|history|].key == k;
      }
      if Occurs(k, history) {
        var i :| 0 <= i < |history| && history[i].key == k;
        assert all[i].key == k;
      }
    }
    if a.key !in m {
      SumAbsent(a.key, history);
    }
  }

  // ---- the order of Snapshot ----

  predicate Before(a: Key, b: Key) {
    if a.internalModelID != b.internalModelID then Less(a.internalModelID, b.internalModelID)
    else if a.sourceProtocol != b.sourceProtocol then Less(a.sourceProtocol, b.sourceProtocol)
    else a.httpStatus < b.httpStatus
  }

  predicate ItemBefore(a: Item, b: Item) {
    Before(a.key, b.key)
  }

  predicate SortedItems(items: seq<Item>) {
    Sorting.SortedBy(ItemBefore, items)
  }

  /** Three-way comparison of two strings, as the nested comparison uses it. */
  lemma LessCases(a: string, b: string, c: string)
    ensures !(Less(a, b) && Less(b, a)) && (Less(a, b) || a == b || Less(b, a))
    ensures Less(a, b) && Less(b, c) ==> Less(a, c)
  {
    Sorting.LessTotal(a, b);
    if Less(a, b) && Less(b, c) {
      Sorting.LessTransitive(a, b, c);
    }
  }

  lemma BeforeAsymmetric(a: Key, b: Key)
    ensures !(Before(a, b) && Before(b, a))
    ensures !Before(a, b) && !Before(b, a) <==>
            a.internalModelID == b.internalModelID && a.sourceProtocol == b.sourceProtocol && a.httpStatus == b.httpStatus
  {
    LessCases(a.internalModelID, b.internalModelID, a.internalModelID);
    LessCases(a.sourceProtocol, b.sourceProtocol, a.sourceProtocol);
  }

  lemma BeforeTransitive(a: Key, b: Key, c: Key)
    requires Before(a, b) && Before(b, c)
    ensures Before(a, c)
  {
    LessCases(a.internalModelID, b.internalModelID, c.internalModelID);
    LessCases(b.internalModelID, c.internalModelID, a.internalModelID);
    LessCases(a.sourceProtocol, b.sourceProtocol, c.sourceProtocol);
    LessCases(b.sourceProtocol, c.sourceProtocol, a.sourceProtocol);
  }

  lemma ItemBeforeIsWeakOrder()
    ensures Sorting.WeakOrder(ItemBefore)
  {
    forall a, b | ItemBefore(a, b) ensures !ItemBefore(b, a) {
      BeforeAsymmetric(a.key, b.key);
    }
    forall a, b, c | !ItemBefore(b, a) && !ItemBefore(c, b) ensures !ItemBefore(c, a) {
      NotBeforeTransitive(a.key, b.key, c.key);
    }
  }

  lemma NotBeforeTransitive(a: Key, b: Key, c: Key)
    requires !Before(b, a) && !Before(c, b)
    ensures !Before(c, a)
  {
    BeforeAsymmetric(a, b);
    BeforeAsymmetric(b, c);
    BeforeAsymmetric(a, c);
    if Before(a, b) && Before(b, c) {
      BeforeTransitive(a, b, c);
    }
  }

  /** sort.Slice with the comparison above. */
  function SortItems(items: seq<Item>): (r: seq<Item>)
    ensures SortedItems(r)
    ensures multiset(r) == multiset(items)
  {
    ItemBeforeIsWeakOrder();
    Sorting.Sort(ItemBefore, items)
  }

  /** By internal model, then by client protocol, then by status. */
  predicate Listing(a: Key, b: Key) {
    && Sorting.LessEq(a.internalModelID, b.internalModelID)
    && (a.internalModelID == b.internalModelID ==> Sorting.LessEq(a.sourceProtocol, b.sourceProtocol))
    && (a.internalModelID == b.internalModelID && a.sourceProtocol == b.sourceProtocol ==> a.httpStatus <= b.httpStatus)
  }

  lemma SortedIsListed(items: seq<Item>)
    requires SortedItems(items)
    ensures forall i, j :: 0 <= i < j < |items| ==> Listing(items[i].key, items[j].key)
  {
    forall i, j | 0 <= i < j < |items| ensures Listing(items[i].key, items[j].key) {
      var a, b := items[i].key, items[j].key;
      assert !ItemBefore(items[j], items[i]);
      LessCases(a.internalModelID, b.internalModelID, "");
      LessCases(a.sourceProtocol, b.sourceProtocol, "");
    }
  }

  class Recorder {
    var m: map<Key, Row>
    ghost var history: seq<Attempt>

    ghost predicate Valid()
      reads this
    {
      Exact(m, history)
    }

    constructor ()
      ensures Valid() && history == []
    {
      m, history := map[], [];
    }

    method Record(k: Key, c: Counts, failed: bool)
      requires Valid()
      modifies this
      ensures Valid() && history == old(history) + [Attempt(k, c, failed)]
    {
      ExactSnoc(m, history, Attempt(k, c, failed));
      history := history + [Attempt(k, c, failed)];
      var a := if k in m then m[k] else NO_ROW;
      a := a.(requests := a.requests + 1);
      if failed {
        a := a.(failures := a.failures + 1);
      }
      a := a.(tokens := Plus(a.tokens, c));
      m := m[k := a];
    }

    /** Every key that occurs, once, with the exact sums over its attempts, in order. */
    method Snapshot() returns (out: seq<Item>)
      requires Valid()
      ensures forall i, j :: 0 <= i < j < |out| ==> Listing(out[i].key, out[j].key)
      ensures forall i :: 0 <= i < |out| ==> Occurs(out[i].key, history) && out[i].row == Sum(out[i].key, history)
      ensures forall k :: Occurs(k, history) ==> exists i :: 0 <= i < |out| && out[i].key == k
      ensures forall i, j :: 0 <= i < j < |out| ==> out[i].key != out[j].key
    {
      out := [];
      var left := m.Keys;
      while left != {}
        invariant left <= m.Keys
        invariant Listed(m, m.Keys - left, multiset(out))
        decreases left
      {
        var k :| k in left;
        out := out + [Item(k, m[k])];
        left := left - {k};
      }
      out := SortItems(out);
      SortedIsListed(out);
      OncePerKey(m, out);
    }
  }

  /** One item for each of these keys, and no other. */
  ghost predicate Listed(m: map<Key, Row>, done: set<Key>, items: multiset<Item>) {
    forall item :: items[item] == if item.key in done && item.key in m && item.row == m[item.key] then 1 else 0
  }

  lemma OncePerKey(m: map<Key, Row>, out: seq<Item>)
    requires Listed(m, m.Keys, multiset(out))
    ensures forall i :: 0 <= i < |out| ==> out[i].key in m && out[i].row == m[out[i].key]
    ensures forall k :: k in m ==> exists i :: 0 <= i < |out| && out[i].key == k
    ensures forall i, j :: 0 <= i < j < |out| ==> out[i].key != out[j].key
  {
    forall i | 0 <= i < |out| ensures out[i].key in m && out[i].row == m[out[i].key] {
      assert out[i] in multiset(out);
    }
    forall k | k in m ensures exists i :: 0 <= i < |out| && out[i].key == k {
      assert Item(k, m[k]) in multiset(out);
      var i :| 0 <= i < |out| && out[i] == Item(k, m[k]);
    }
    forall i, j | 0 <= i < j < |out| ensures out[i].key != out[j].key {
      if out[i].key == out[j].key {
        Lists.Twice(out, i, j);
      }
    }
  }

  // ---- conservation ----

  function SumOver(keys: seq<Key>, history: seq<Attempt>): Row {
    if keys == [] then NO_ROW else PlusRow(Sum(keys[0], history), SumOver(keys[1..], history))
  }

  lemma {:induction false} SumOverSnoc(keys: seq<Key>, history: seq<Attempt>, a: Attempt)
    requires forall i, j :: 0 <= i < j < |keys| ==> keys[i] != keys[j]
    ensures SumOver(keys, history + [a]) ==
            if a.key in keys then PlusRow(SumOver(keys, history), RowOf(a)) else SumOver(keys, history)
  {
    if keys != [] {
      SumOverSnoc(keys[1..], history, a);
      SumSnoc(keys[0], history, a);
      assert keys == [keys[0]] + keys[1..];
      if a.key == keys[0] {
        assert a.key !in keys[1..];
        PlusMoves(Sum(keys[0], history), RowOf(a), SumOver(keys[1..], history));
      } else if a.key in keys[1..] {
        PlusGroups(Sum(keys[0], history), SumOver(keys[1..], history), RowOf(a));
      }
    }
  }

  lemma SumSnoc(k: Key, history: seq<Attempt>, a: Attempt)
    ensures Sum(k, history + [a]) == if a.key == k then PlusRow(Sum(k, history), RowOf(a)) else Sum(k, history)
  {
    assert (history + [a])[..|history|] == history;
  }

  lemma PlusMoves(x: Row, y: Row, z: Row)
    ensures PlusRow(PlusRow(x, y), z) == PlusRow(PlusRow(x, z), y)
  {
  }

  lemma PlusGroups(x: Row, y: Row, z: Row)
    ensures PlusRow(x, PlusRow(y, z)) == PlusRow(PlusRow(x, y), z)
  {
  }

  lemma {:induction false} SumOverNothing(keys: seq<Key>)
    ensures SumOver(keys, []) == NO_ROW
  {
    if keys != [] {
      SumOverNothing(keys[1..]);
    }
  }

  /** Nothing is lost or counted twice: over keys that cover the history once each, the rows add up to all of it. */
  lemma {:induction false} RowsAddUp(keys: seq<Key>, history: seq<Attempt>)
    requires forall i, j :: 0 <= i < j < |keys| ==> keys[i] != keys[j]
    requires forall i :: 0 <= i < |history| ==> history[i].key in keys
    ensures SumOver(keys, history) == Total(history)
  {
    if history == [] {
      SumOverNothing(keys);
    } else {
      var front, last := history[..|history| - 1], history[|history| - 1];
      assert history == front + [last];
      RowsAddUp(keys, front);
      SumOverSnoc(keys, front, last);
    }
  }

  // ---- what a row holds, column by column ----

  /** The sum of one column over the attempts with this key. */
  function Column(k: Key, history: seq<Attempt>, value: Attempt -> int): int {
    if history == [] then 0
    else
      Column(k, history[..|history| - 1], value)
      + if history[|history| - 1].key == k then value(history[|history| - 1]) else 0
  }

  lemma {:induction false} RowIsColumns(k: Key, history: seq<Attempt>)
    ensures
      var row := Sum(k, history);
      && row.requests == Column(k, history, _ => 1)
      && row.failures == Column(k, history, (a: Attempt) => if a.failed then 1 else 0)
      && row.tokens.input == Column(k, history, (a: Attempt) => a.counts.input)
      && row.tokens.output == Column(k, history, (a: Attempt) => a.counts.output)
      && row.tokens.cacheRead == Column(k, history, (a: Attempt) => a.counts.cacheRead)
      && row.tokens.cacheCreation == Column(k, history, (a: Attempt) => a.counts.cacheCreation)
      && row.tokens.cached == Column(k, history, (a: Attempt) => a.counts.cached)
      && row.tokens.reasoning == Column(k, history, (a: Attempt) => a.counts.reasoning)
      && row.tokens.total == Column(k, history, (a: Attempt) => a.counts.total)
  {
    if history != [] {
      RowIsColumns(k, history[..|history| - 1]);
    }
  }
}
