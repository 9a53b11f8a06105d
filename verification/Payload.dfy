/** internal/payload/engine.go: default, override and filter rules over a JSON body, by path. */
module Payload {
  import opened Wrappers
  import opened Strings
  import opened JsonTree
  import opened Config
  import Validate
  import opened Lists
  import Sorting

  // ---- gjson's get, sjson's set and delete, on the keys of a plain path ----

  /** A dot-separated path, cut into keys. */
  function Keys(path: string): (r: seq<string>)
    ensures r != []
  {
    Split(path, '.')
  }

  predicate IsDigit(c: char) {
    '0' <= c <= '9'
  }

  /** A key that indexes an array. */
  predicate Numeric(key: string) {
    key != "" && forall i :: 0 <= i < |key| ==> IsDigit(key[i])
  }

  function Number(key: string): nat
    requires forall i :: 0 <= i < |key| ==> IsDigit(key[i])
  {
    if key == "" then 0
    else
      assert IsDigit(key[|key| - 1]);
      Number(key[..|key| - 1]) * 10 + (key[|key| - 1] as int - '0' as int)
  }

  function Get(j: Json, keys: seq<string>): Option<Json> {
    if keys == [] then Some(j)
    else
      match j
      case Obj(fields) => if keys[0] in fields then Get(fields[keys[0]], keys[1..]) else None
      case Arr(items) =>
        if Numeric(keys[0]) && Number(keys[0]) < |items| then Get(items[Number(keys[0])], keys[1..]) else None
      case _ => None
  }

  function Nulls(n: nat): seq<Json> {
    seq(n, _ => Null)
  }

  /** The value wrapped in the containers the keys call for. */
  function Build(keys: seq<string>, v: Json): Json {
    if keys == [] then v
    else if Numeric(keys[0]) then Arr(Nulls(Number(keys[0])) + [Build(keys[1..], v)])
    else Obj(map[keys[0] := Build(keys[1..], v)])
  }

  /** None is sjson's error: an array given a key that is no index. A scalar in the way is replaced. */
  function Set(j: Json, keys: seq<string>, v: Json): Option<Json> {
    if keys == [] then Some(v)
    else
      match j
      case Obj(fields) =>
        if keys[0] in fields then
          match Set(fields[keys[0]], keys[1..], v)
          case Some(x) => Some(Obj(fields[keys[0] := x]))
          case None => None
        else Some(Obj(fields[keys[0] := Build(keys[1..], v)]))
      case Arr(items) =>
        if !Numeric(keys[0]) then None
        else
          var n := Number(keys[0]);
          if n < |items| then
            match Set(items[n], keys[1..], v)
            case Some(x) => Some(Arr(items[n := x]))
            case None => None
          else Some(Arr(items + Nulls(n - |items|) + [Build(keys[1..], v)]))
      case _ => Some(Build(keys, v))
  }

  /** None is "no change": there is nothing at the path. */
  function Delete(j: Json, keys: seq<string>): Option<Json>
    requires keys != []
    decreases |keys|
  {
    match j
    case Obj(fields) =>
      if keys[0] !in fields then None
      else if |keys| == 1 then Some(Obj(fields - {keys[0]}))
      else
        (match Delete(fields[keys[0]], keys[1..])
         case Some(x) => Some(Obj(fields[keys[0] := x]))
         case None => None)
    case Arr(items) =>
      if !Numeric(keys[0]) || Number(keys[0]) >= |items| then None
      else
        var n := Number(keys[0]);
        if |keys| == 1 then Some(Arr(items[..n] + items[n + 1..]))
        else
          (match Delete(items[n], keys[1..])
           case Some(x) => Some(Arr(items[n := x]))
           case None => None)
    case _ => None
  }

  /** An error leaves the body as it was. */
  function Put(j: Json, keys: seq<string>, v: Json): Json {
    match Set(j, keys, v)
    case Some(x) => x
    case None => j
  }

  function Drop(j: Json, keys: seq<string>): Json
    requires keys != []
  {
    match Delete(j, keys)
    case Some(x) => x
    case None => j
  }

  // ---- the phases ----

  /** A write of a rule: the keys and the value. */
  datatype Write = Write(keys: seq<string>, value: Json)

  datatype Kind = Defaults | Overrides

  function Step(kind: Kind, j: Json, w: Write): Json {
    if kind.Defaults? && Get(j, w.keys).Some? then j else Put(j, w.keys, w.value)
  }

  function Steps(kind: Kind, j: Json, ws: seq<Write>): Json
    decreases |ws|
  {
    if ws == [] then j else Steps(kind, Step(kind, j, ws[0]), ws[1..])
  }

  /** What a param writes; a raw one holds its JSON as a string. */
  function ValueOf(decode: string -> Option<Json>, raw: bool, v: Json): Option<Json> {
    if !raw then Some(v) else if v.Str? then decode(v.s) else None
  }

  /** The params of a rule, in some order of its map. A raw param that is no JSON is never written. */
  function WritesOf(
      decode: string -> Option<Json>, raw: bool, params: map<string, Json>, order: seq<string>): seq<Write>
    requires forall i :: 0 <= i < |order| ==> order[i] in params
  {
    if order == [] then []
    else
      var v := ValueOf(decode, raw, params[order[0]]);
      (if v.Some? then [Write(Keys(order[0]), v.value)] else []) + WritesOf(decode, raw, params, order[1..])
  }

  /** Every key of the map, once. */
  ghost predicate IsOrder(params: map<string, Json>, order: seq<string>) {
    && (forall i :: 0 <= i < |order| ==> order[i] in params)
    && (forall p :: p in params ==> p in order)
    && (forall i, j :: 0 <= i < j < |order| ==> order[i] != order[j])
  }

  ghost predicate AreOrders(rules: seq<PayloadRule>, orders: seq<seq<string>>) {
    |orders| == |rules| && forall r :: 0 <= r < |rules| ==> IsOrder(rules[r].params, orders[r])
  }

  /** One phase: each rule in turn, if its clauses match the body as it then is. `matches` is anyModelMatches. */
  ghost function Phase(
      matches: (seq<PayloadModelRule>, Json) -> bool, decode: string -> Option<Json>, kind: Kind, raw: bool,
      rules: seq<PayloadRule>, orders: seq<seq<string>>, j: Json): Json
    requires AreOrders(rules, orders)
  {
    if rules == [] then j
    else
      var n := |rules| - 1;
      var before := Phase(matches, decode, kind, raw, rules[..n], orders[..n], j);
      if matches(rules[n].models, before) then
        Steps(kind, before, WritesOf(decode, raw, rules[n].params, orders[n]))
      else before
  }

  lemma PhaseSnoc(
      matches: (seq<PayloadModelRule>, Json) -> bool, decode: string -> Option<Json>, kind: Kind, raw: bool,
      rules: seq<PayloadRule>, orders: seq<seq<string>>, rule: PayloadRule, order: seq<string>, j: Json)
    requires AreOrders(rules, orders) && IsOrder(rule.params, order)
    ensures AreOrders(rules + [rule], orders + [order])
    ensures
      var before := Phase(matches, decode, kind, raw, rules, orders, j);
      Phase(matches, decode, kind, raw, rules + [rule], orders + [order], j) ==
      if matches(rule.models, before) then Steps(kind, before, WritesOf(decode, raw, rule.params, order)) else before
  {
    var n := |rules|;
    assert (rules + [rule])[..n] == rules && (orders + [order])[..n] == orders;
  }

  /** All paths of the filter rules that match the body, rule by rule. */
  function FilterPaths(
      matches: (seq<PayloadModelRule>, Json) -> bool, rules: seq<PayloadFilterRule>, j: Json): seq<string>
  {
    if rules == [] then []
    else
      var n := |rules| - 1;
      FilterPaths(matches, rules[..n], j) + if matches(rules[n].models, j) then rules[n].params else []
  }

  function Drops(j: Json, paths: seq<string>): Json
    decreases |paths|
  {
    if paths == [] then j else Drops(Drop(j, Keys(paths[0])), paths[1..])
  }

  function Reverse(ss: seq<string>): (r: seq<string>)
    ensures |r| == |ss|
    ensures forall i :: 0 <= i < |ss| ==> r[i] == ss[|ss| - 1 - i]
  {
    seq(|ss|, i requires 0 <= i < |ss| => ss[|ss| - 1 - i])
  }

  /** The order applyFilter deletes in. */
  function Order(paths: seq<string>): (r: seq<string>)
    ensures |r| == |Sorting.SortStrings(paths)|
  {
    Reverse(Sorting.SortStrings(paths))
  }

  lemma ReverseMember(ss: seq<string>, p: string)
    ensures p in Reverse(ss) <==> p in ss
  {
    if p in ss {
      var i :| 0 <= i < |ss| && ss[i] == p;
      assert Reverse(ss)[|ss| - 1 - i] == p;
    }
    if p in Reverse(ss) {
      var i :| 0 <= i < |ss| && Reverse(ss)[i] == p;
      assert ss[|ss| - 1 - i] == p;
    }
  }

  lemma OrderMember(paths: seq<string>, p: string)
    ensures p in Order(paths) <==> p in paths
  {
    ReverseMember(Sorting.SortStrings(paths), p);
    Sorting.SortedMember(paths, p);
  }

  lemma OrderDescends(paths: seq<string>, a: nat, b: nat)
    requires a < b < |Order(paths)|
    ensures Sorting.LessEq(Order(paths)[b], Order(paths)[a])
  {
    var sorted := Sorting.SortStrings(paths);
    var n := |sorted|;
    assert Sorting.LessEq(sorted[n - 1 - b], sorted[n - 1 - a]);
  }

  lemma OrderDistinct(paths: seq<string>)
    requires forall i, j :: 0 <= i < j < |paths| ==> paths[i] != paths[j]
    ensures forall i, j :: 0 <= i < j < |Order(paths)| ==> Order(paths)[i] != Order(paths)[j]
  {
    var sorted := Sorting.SortStrings(paths);
    forall i, j | 0 <= i < j < |sorted| ensures sorted[i] != sorted[j] {
      if sorted[i] == sorted[j] {
        Twice(sorted, i, j);
        Once(paths, sorted[i]);
      }
    }
  }

  function Filtered(matches: (seq<PayloadModelRule>, Json) -> bool, rules: seq<PayloadFilterRule>, j: Json): Json {
    Drops(j, Order(FilterPaths(matches, rules, j)))
  }

  // ---- the engine ----

  lemma StepsSnoc(kind: Kind, j: Json, ws: seq<Write>, w: Write)
    ensures Steps(kind, j, ws + [w]) == Step(kind, Steps(kind, j, ws), w)
    decreases |ws|
  {
    if ws == [] {
      assert ([] + [w])[1..] == [];
    } else {
      StepsSnoc(kind, Step(kind, j, ws[0]), ws[1..], w);
      assert (ws + [w])[1..] == ws[1..] + [w];
    }
  }

  lemma {:induction false} WritesSnoc(
      decode: string -> Option<Json>, raw: bool, params: map<string, Json>, order: seq<string>, p: string)
    requires forall i :: 0 <= i < |order| ==> order[i] in params
    requires p in params
    ensures
      var v := ValueOf(decode, raw, params[p]);
      WritesOf(decode, raw, params, order + [p]) ==
      WritesOf(decode, raw, params, order) + if v.Some? then [Write(Keys(p), v.value)] else []
  {
    var all := order + [p];
    var last := ValueOf(decode, raw, params[p]);
    var mine := if last.Some? then [Write(Keys(p), last.value)] else [];
    if order == [] {
      assert all[1..] == [] && all[0] == p;
    } else {
      WritesSnoc(decode, raw, params, order[1..], p);
      assert all[1..] == order[1..] + [p] && all[0] == order[0];
      var v := ValueOf(decode, raw, params[order[0]]);
      var first := if v.Some? then [Write(Keys(order[0]), v.value)] else [];
      Regroup(first, WritesOf(decode, raw, params, order[1..]), mine);
    }
  }

  /** The params of one rule, in whatever order the map yields them. */
  method ApplyRule(decode: string -> Option<Json>, kind: Kind, raw: bool, params: map<string, Json>, body: Json)
    returns (out: Json, ghost order: seq<string>)
    ensures IsOrder(params, order)
    ensures out == Steps(kind, body, WritesOf(decode, raw, params, order))
  {
    out, order := body, [];
    var left := params.Keys;
    while left != {}
      invariant left <= params.Keys
      invariant forall p :: p in order <==> p in params && p !in left
      invariant forall i, j :: 0 <= i < j < |order| ==> order[i] != order[j]
      invariant forall i :: 0 <= i < |order| ==> order[i] in params
      invariant out == Steps(kind, body, WritesOf(decode, raw, params, order))
      decreases left
    {
      var path :| path in left;
      var val := params[path];
      WritesSnoc(decode, raw, params, order, path);
      var v := ValueOf(decode, raw, val);
      ghost var ws := WritesOf(decode, raw, params, order);
      if v.Some? {
        StepsSnoc(kind, body, ws, Write(Keys(path), v.value));
      } else {
        assert ws + [] == ws;
      }
      if kind.Overrides? || Get(out, Keys(path)).None? {
        if v.Some? {
          out := Put(out, Keys(path), v.value);
        }
      }
      order := order + [path];
      left := left - {path};
    }
  }

  lemma SomeOrder(params: map<string, Json>) returns (order: seq<string>)
    ensures IsOrder(params, order)
  {
    order := [];
    var left := params.Keys;
    while left != {}
      invariant left <= params.Keys
      invariant forall p :: p in order <==> p in params && p !in left
      invariant forall i, j :: 0 <= i < j < |order| ==> order[i] != order[j]
      decreases left
    {
      var p :| p in left;
      order := order + [p];
      left := left - {p};
    }
  }

  /** applyDefault and applyOverride. */
  method ApplyRules(
      matches: (seq<PayloadModelRule>, Json) -> bool, decode: string -> Option<Json>, kind: Kind, raw: bool,
      rules: seq<PayloadRule>, body: Json)
    returns (out: Json, ghost orders: seq<seq<string>>)
    ensures AreOrders(rules, orders)
    ensures out == Phase(matches, decode, kind, raw, rules, orders, body)
  {
    out, orders := body, [];
    var i := 0;
    while i < |rules|
      invariant 0 <= i <= |rules|
      invariant AreOrders(rules[..i], orders)
      invariant out == Phase(matches, decode, kind, raw, rules[..i], orders, body)
    {
      ghost var order;
      if matches(rules[i].models, out) {
        out, order := ApplyRule(decode, kind, raw, rules[i].params, out);
      } else {
        order := SomeOrder(rules[i].params);
      }
      ghost var sofar := orders;
      orders := orders + [order];
      assert rules[..i + 1] == rules[..i] + [rules[i]];
      PhaseSnoc(matches, decode, kind, raw, rules[..i], sofar, rules[i], order, body);
      i := i + 1;
    }
    assert rules[..i] == rules;
  }

  /** applyFilter: the matching paths, reverse-sorted, deleted one by one. */
  method ApplyFilter(
      matches: (seq<PayloadModelRule>, Json) -> bool, rules: seq<PayloadFilterRule>, body: Json) returns (out: Json)
    ensures out == Filtered(matches, rules, body)
  {
    var paths: seq<string> := [];
    var i := 0;
    while i < |rules|
      invariant 0 <= i <= |rules|
      invariant paths == FilterPaths(matches, rules[..i], body)
    {
      assert rules[..i + 1][..i] == rules[..i];
      if matches(rules[i].models, body) {
        paths := paths + rules[i].params;
      }
      i := i + 1;
    }
    assert rules[..i] == rules;
    paths := Order(paths);
    out := body;
    i := 0;
    while i < |paths|
      invariant 0 <= i <= |paths|
      invariant Drops(out, paths[i..]) == Drops(body, paths)
    {
      out := Drop(out, Keys(paths[i]));
      i := i + 1;
    }
  }

  /** The five phases, with the orders the maps were walked in. */
  ghost function Applied(
      matches: (seq<PayloadModelRule>, Json) -> bool, decode: string -> Option<Json>, pc: PayloadConfig,
      orders: seq<seq<seq<string>>>, j: Json): Json
    requires |orders| == 4
    requires AreOrders(pc.defaults, orders[0]) && AreOrders(pc.defaultRaw, orders[1])
    requires AreOrders(pc.overrides, orders[2]) && AreOrders(pc.overrideRaw, orders[3])
  {
    var a := Phase(matches, decode, Defaults, false, pc.defaults, orders[0], j);
    var b := Phase(matches, decode, Defaults, true, pc.defaultRaw, orders[1], a);
    var c := Phase(matches, decode, Overrides, false, pc.overrides, orders[2], b);
    var d := Phase(matches, decode, Overrides, true, pc.overrideRaw, orders[3], c);
    Filtered(matches, pc.filter, d)
  }
}
