/** internal/payload/engine.go, Apply as a whole: what the five phases leave at a path, told from the rules and the
    body alone. */
module PayloadApply {
  import opened Wrappers
  import opened Strings
  import opened Lists
  import opened JsonTree
  import opened Config
  import opened Payload
  import opened PayloadLaws

  // ---- the writing rules as one list of turns ----

  datatype Turn = Turn(kind: Kind, raw: bool, rule: PayloadRule)

  function TurnsOf(kind: Kind, raw: bool, rules: seq<PayloadRule>): (r: seq<Turn>)
    ensures |r| == |rules|
  {
    seq(|rules|, i requires 0 <= i < |rules| => Turn(kind, raw, rules[i]))
  }

  /** The order the engine takes its writing rules in. */
  function Turns(pc: PayloadConfig): seq<Turn> {
    TurnsOf(Defaults, false, pc.defaults) + TurnsOf(Defaults, true, pc.defaultRaw)
    + TurnsOf(Overrides, false, pc.overrides) + TurnsOf(Overrides, true, pc.overrideRaw)
  }

  /** What a rule would write at a path. */
  function Offer(decode: string -> Option<Json>, t: Turn, path: string): Option<Json> {
    if path in t.rule.params then ValueOf(decode, t.raw, t.rule.params[path]) else None
  }

  /** The last of the overrides that matched and write this path. */
  function LastOverride(decode: string -> Option<Json>, turns: seq<Turn>, hits: seq<bool>, path: string): Option<Json>
    requires |hits| == |turns|
  {
    if turns == [] then None
    else
      var n := |turns| - 1;
      if turns[n].kind.Overrides? && hits[n] && Offer(decode, turns[n], path).Some? then Offer(decode, turns[n], path)
      else LastOverride(decode, turns[..n], hits[..n], path)
  }

  /** The first of the defaults that matched and write this path. */
  function FirstDefault(decode: string -> Option<Json>, turns: seq<Turn>, hits: seq<bool>, path: string): Option<Json>
    requires |hits| == |turns|
  {
    if turns == [] then None
    else
      var n := |turns| - 1;
      var first := FirstDefault(decode, turns[..n], hits[..n], path);
      if first.Some? then first
      else if turns[n].kind.Defaults? && hits[n] then Offer(decode, turns[n], path)
      else None
  }

  /** What a path shows after some turns: the last override, else what the body held, else the first default. */
  function Shown(decode: string -> Option<Json>, turns: seq<Turn>, hits: seq<bool>, body: Json, path: string): Option<Json>
    requires |hits| == |turns|
  {
    if LastOverride(decode, turns, hits, path).Some? then LastOverride(decode, turns, hits, path)
    else if Get(body, Keys(path)).Some? then Get(body, Keys(path))
    else FirstDefault(decode, turns, hits, path)
  }

  /** Object paths that equal this one or diverge from it. */
  predicate Beside(path: string, other: string) {
    ObjectPath(Keys(other)) && (other == path || Diverge(Keys(path), Keys(other)))
  }

  /** Every path of the rules is beside this one, and the body has no array on the way to it. */
  ghost predicate Governed(pc: PayloadConfig, body: Json, path: string) {
    && ObjectPath(Keys(path)) && Reaches(body, Keys(path))
    && (forall t, other :: t in Turns(pc) && other in t.rule.params ==> Beside(path, other))
    && (forall r, other :: r in pc.filter && other in r.params ==> Beside(path, other))
  }

  /** Some filter rule that matches this body names the path. */
  ghost predicate Filtered(
      matches: (seq<PayloadModelRule>, Json) -> bool, pc: PayloadConfig, body: Json, path: string)
  {
    exists r :: r in pc.filter && path in r.params && matches(r.models, body)
  }

  /** The bodies as each rule meets them in its turn, and whether it matches. */
  ghost predicate Meets(
      matches: (seq<PayloadModelRule>, Json) -> bool, turns: seq<Turn>, body: Json, seen: seq<Json>, hits: seq<bool>)
  {
    && |hits| == |turns| && |seen| == |turns| + 1 && seen[0] == body
    && forall t :: 0 <= t < |turns| ==> hits[t] == matches(turns[t].rule.models, seen[t])
  }

  // ---- one turn ----

  lemma KeysInjective(p: string, q: string)
    requires Keys(p) == Keys(q)
    ensures p == q
  {
    JoinSplit(p, '.');
    JoinSplit(q, '.');
  }

  /** A rule's params write a path at most once, whatever order its map is walked in. */
  lemma {:induction false} WriteTo(
      decode: string -> Option<Json>, raw: bool, params: map<string, Json>, order: seq<string>, path: string)
    requires forall i :: 0 <= i < |order| ==> order[i] in params
    requires forall i, j :: 0 <= i < j < |order| ==> order[i] != order[j]
    ensures FirstTo(WritesOf(decode, raw, params, order), Keys(path)) ==
            if path in order then ValueOf(decode, raw, params[path]) else None
  {
    if order != [] {
      WriteTo(decode, raw, params, order[1..], path);
      var rest := WritesOf(decode, raw, params, order[1..]);
      var v := ValueOf(decode, raw, params[order[0]]);
      assert order == [order[0]] + order[1..];
      if v.Some? {
        assert ([Write(Keys(order[0]), v.value)] + rest)[1..] == rest;
        if Keys(order[0]) == Keys(path) {
          KeysInjective(order[0], path);
        }
      } else {
        assert [] + rest == rest;
        if order[0] == path {
          assert path !in order[1..];
        }
      }
    }
  }

  /** No two writes to the same keys. */
  predicate OneEach(ws: seq<Write>) {
    forall i, j :: 0 <= i < j < |ws| ==> ws[i].keys != ws[j].keys
  }

  /** A single write to a path is its first and its last. */
  lemma {:induction false} OnlyWrite(ws: seq<Write>, p: seq<string>)
    requires OneEach(ws)
    ensures LastTo(ws, p) == FirstTo(ws, p)
  {
    if ws != [] {
      OnlyWrite(ws[1..], p);
      LastOf(ws, p);
      if ws[0].keys == p {
        NoneTo(ws[1..], p);
      }
    }
  }

  lemma {:induction false} NoneTo(ws: seq<Write>, p: seq<string>)
    requires forall i :: 0 <= i < |ws| ==> ws[i].keys != p
    ensures FirstTo(ws, p).None?
  {
    if ws != [] {
      NoneTo(ws[1..], p);
    }
  }

  lemma {:induction false} LastOf(ws: seq<Write>, p: seq<string>)
    requires ws != []
    ensures LastTo(ws, p) ==
            if LastTo(ws[1..], p).Some? then LastTo(ws[1..], p)
            else if ws[0].keys == p then Some(ws[0].value)
            else None
  {
    var n := |ws| - 1;
    if n > 0 && ws[n].keys != p {
      LastOf(ws[..n], p);
      assert ws[..n][1..] == ws[1..][..n - 1] && ws[1..][n - 1] == ws[n];
    } else if n > 0 {
      assert ws[1..][n - 1] == ws[n];
    }
  }

  lemma {:induction false} StepsReach(kind: Kind, j: Json, ws: seq<Write>, p: seq<string>)
    requires Apart(ws, p) && Reaches(j, p)
    ensures Reaches(Steps(kind, j, ws), p)
    decreases |ws|
  {
    if ws != [] {
      if ws[0].keys == p {
        GetPut(j, p, ws[0].value);
      } else {
        ReachesAfter(j, p, ws[0].keys, ws[0].value);
      }
      StepsReach(kind, Step(kind, j, ws[0]), ws[1..], p);
    }
  }

  lemma OneMore(w: Write, ws: seq<Write>)
    requires OneEach(ws) && forall j :: 0 <= j < |ws| ==> w.keys != ws[j].keys
    ensures OneEach([w] + ws)
  {
    var all := [w] + ws;
    forall i, j | 0 <= i < j < |all| ensures all[i].keys != all[j].keys {
      assert all[j] == ws[j - 1] && (i > 0 ==> all[i] == ws[i - 1]);
    }
  }

  lemma {:induction false} WritesApart(
      decode: string -> Option<Json>, raw: bool, params: map<string, Json>, order: seq<string>, path: string)
    requires forall i :: 0 <= i < |order| ==> order[i] in params
    requires forall i, j :: 0 <= i < j < |order| ==> order[i] != order[j]
    requires ObjectPath(Keys(path)) && forall other :: other in params ==> Beside(path, other)
    ensures Apart(WritesOf(decode, raw, params, order), Keys(path))
    ensures OneEach(WritesOf(decode, raw, params, order))
  {
    if order != [] {
      WritesApart(decode, raw, params, order[1..], path);
      WritesAreParams(decode, raw, params, order[1..]);
      assert Beside(path, order[0]);
      var ws, rest := WritesOf(decode, raw, params, order), WritesOf(decode, raw, params, order[1..]);
      var v := ValueOf(decode, raw, params[order[0]]);
      if v.Some? {
        assert ws == [Write(Keys(order[0]), v.value)] + rest;
        forall j | 0 <= j < |rest| ensures Keys(order[0]) != rest[j].keys {
          assert rest[j] in rest;
          var other :| other in order[1..] && other in params && rest[j].keys == Keys(other);
          if Keys(other) == Keys(order[0]) {
            KeysInjective(other, order[0]);
          }
        }
        OneMore(Write(Keys(order[0]), v.value), rest);
      } else {
        assert ws == rest;
      }
    }
  }

  /** What one turn does to a path. */
  lemma TurnShows(
      decode: string -> Option<Json>, t: Turn, order: seq<string>, j: Json, path: string)
    requires IsOrder(t.rule.params, order) && ObjectPath(Keys(path)) && Reaches(j, Keys(path))
    requires forall other :: other in t.rule.params ==> Beside(path, other)
    ensures
      var after := Steps(t.kind, j, WritesOf(decode, t.raw, t.rule.params, order));
      var offer, held := Offer(decode, t, path), Get(j, Keys(path));
      && Reaches(after, Keys(path))
      && Get(after, Keys(path)) ==
         if t.kind.Overrides? then (if offer.Some? then offer else held) else (if held.Some? then held else offer)
  {
    var ws := WritesOf(decode, t.raw, t.rule.params, order);
    WritesApart(decode, t.raw, t.rule.params, order, path);
    StepsReach(t.kind, j, ws, Keys(path));
    WriteTo(decode, t.raw, t.rule.params, order, path);
    OnlyWrite(ws, Keys(path));
    if t.kind.Overrides? {
      LastOverrideWins(j, ws, Keys(path));
    } else {
      FirstDefaultWins(j, ws, Keys(path));
    }
  }

  // ---- all turns ----

  /** Each body is the one before after its turn, if the rule matched it. */
  ghost predicate Runs(
      matches: (seq<PayloadModelRule>, Json) -> bool, decode: string -> Option<Json>, turns: seq<Turn>,
      orders: seq<seq<string>>, seen: seq<Json>)
  {
    && |orders| == |turns| && |seen| == |turns| + 1
    && forall t :: 0 <= t < |turns| ==> IsOrder(turns[t].rule.params, orders[t]) &&
                                          seen[t + 1] == TurnRun(matches, decode, turns[t], orders[t], seen[t])
  }

  ghost function TurnRun(
      matches: (seq<PayloadModelRule>, Json) -> bool, decode: string -> Option<Json>, t: Turn, order: seq<string>, j: Json)
    : Json
    requires IsOrder(t.rule.params, order)
  {
    if matches(t.rule.models, j) then Steps(t.kind, j, WritesOf(decode, t.raw, t.rule.params, order)) else j
  }

  /** What every body of a run shows at a governed path. */
  lemma {:induction false} RunShows(
      matches: (seq<PayloadModelRule>, Json) -> bool, decode: string -> Option<Json>, turns: seq<Turn>,
      orders: seq<seq<string>>, seen: seq<Json>, hits: seq<bool>, path: string, t: nat)
    requires Runs(matches, decode, turns, orders, seen) && Meets(matches, turns, seen[0], seen, hits) && t <= |turns|
    requires ObjectPath(Keys(path)) && Reaches(seen[0], Keys(path))
    requires forall u, other :: 0 <= u < |turns| && other in turns[u].rule.params ==> Beside(path, other)
    ensures Reaches(seen[t], Keys(path))
    ensures Get(seen[t], Keys(path)) == Shown(decode, turns[..t], hits[..t], seen[0], path)
  {
    if t > 0 {
      RunShows(matches, decode, turns, orders, seen, hits, path, t - 1);
      var u := turns[t - 1];
      assert turns[..t][..t - 1] == turns[..t - 1] && hits[..t][..t - 1] == hits[..t - 1];
      assert turns[..t][t - 1] == u && hits[..t][t - 1] == hits[t - 1];
      if hits[t - 1] {
        TurnShows(decode, u, orders[t - 1], seen[t - 1], path);
      }
    }
  }

  // ---- the phases as turns ----

  /** A phase is a run of its rules' turns. */
  lemma {:induction false} PhaseRuns(
      matches: (seq<PayloadModelRule>, Json) -> bool, decode: string -> Option<Json>, kind: Kind, raw: bool,
      rules: seq<PayloadRule>, orders: seq<seq<string>>, j: Json)
    returns (seen: seq<Json>)
    requires AreOrders(rules, orders)
    ensures Runs(matches, decode, TurnsOf(kind, raw, rules), orders, seen)
    ensures seen[0] == j && seen[|rules|] == Phase(matches, decode, kind, raw, rules, orders, j)
  {
    if rules == [] {
      seen := [j];
    } else {
      var n := |rules| - 1;
      var front := PhaseRuns(matches, decode, kind, raw, rules[..n], orders[..n], j);
      seen := front + [Phase(matches, decode, kind, raw, rules, orders, j)];
      var turns := TurnsOf(kind, raw, rules);
      forall t | 0 <= t < |turns|
        ensures IsOrder(turns[t].rule.params, orders[t])
        ensures seen[t + 1] == TurnRun(matches, decode, turns[t], orders[t], seen[t])
      {
        if t < n {
          assert TurnsOf(kind, raw, rules[..n])[t] == turns[t] && orders[..n][t] == orders[t];
          assert seen[t] == front[t] && seen[t + 1] == front[t + 1];
        }
      }
    }
  }

  /** One run after another. */
  lemma RunsJoin(
      matches: (seq<PayloadModelRule>, Json) -> bool, decode: string -> Option<Json>,
      a: seq<Turn>, oa: seq<seq<string>>, sa: seq<Json>, b: seq<Turn>, ob: seq<seq<string>>, sb: seq<Json>)
    returns (seen: seq<Json>)
    requires Runs(matches, decode, a, oa, sa) && Runs(matches, decode, b, ob, sb) && sa[|a|] == sb[0]
    ensures Runs(matches, decode, a + b, oa + ob, seen)
    ensures seen[0] == sa[0] && seen[|a + b|] == sb[|b|]
  {
    seen := sa + sb[1..];
    forall t | 0 <= t < |a + b|
      ensures IsOrder((a + b)[t].rule.params, (oa + ob)[t])
      ensures seen[t + 1] == TurnRun(matches, decode, (a + b)[t], (oa + ob)[t], seen[t])
    {
      if t < |a| {
        assert (a + b)[t] == a[t] && (oa + ob)[t] == oa[t] && seen[t] == sa[t] && seen[t + 1] == sa[t + 1];
      } else {
        var u := t - |a|;
        assert (a + b)[t] == b[u] && (oa + ob)[t] == ob[u];
        assert seen[t + 1] == sb[u + 1] && seen[t] == sb[u];
      }
    }
  }

  // ---- the filter ----

  lemma {:induction false} DropAcross(j: Json, p: seq<string>, q: seq<string>)
    requires ObjectPath(p) && ObjectPath(q) && Diverge(p, q)
    ensures Get(Drop(j, q), p) == Get(j, p)
    decreases |p|
  {
    assert !Numeric(p[0]) && !Numeric(q[0]);
    if j.Obj? && p[0] == q[0] && q[0] in j.fields {
      DivergeTail(p, q);
      TailIsObjectPath(p);
      TailIsObjectPath(q);
      DropAcross(j.fields[q[0]], p[1..], q[1..]);
    }
  }

  lemma {:induction false} DropSelf(j: Json, p: seq<string>)
    requires ObjectPath(p)
    ensures Get(Drop(j, p), p).None?
    decreases |p|
  {
    assert !Numeric(p[0]);
    if |p| > 1 && j.Obj? && p[0] in j.fields {
      TailIsObjectPath(p);
      DropSelf(j.fields[p[0]], p[1..]);
    }
  }

  lemma {:induction false} DropsShow(j: Json, paths: seq<string>, path: string)
    requires ObjectPath(Keys(path)) && forall other :: other in paths ==> Beside(path, other)
    ensures Get(Drops(j, paths), Keys(path)) == if path in paths then None else Get(j, Keys(path))
    decreases |paths|
  {
    if paths != [] {
      assert paths[0] in paths && paths == [paths[0]] + paths[1..];
      var next := Drop(j, Keys(paths[0]));
      if paths[0] == path {
        DropSelf(j, Keys(path));
      } else {
        DropAcross(j, Keys(path), Keys(paths[0]));
      }
      DropsShow(next, paths[1..], path);
    }
  }

  lemma {:induction false} NamedByFilter(
      matches: (seq<PayloadModelRule>, Json) -> bool, rules: seq<PayloadFilterRule>, j: Json, path: string)
    ensures path in FilterPaths(matches, rules, j) <==>
            exists r :: r in rules && path in r.params && matches(r.models, j)
  {
    if rules != [] {
      var n := |rules| - 1;
      NamedByFilter(matches, rules[..n], j, path);
      assert rules == rules[..n] + [rules[n]];
    }
  }

  // ---- the engine ----

  /** What the engine leaves at every governed path. */
  ghost predicate Obeys(
      matches: (seq<PayloadModelRule>, Json) -> bool, decode: string -> Option<Json>, pc: PayloadConfig, body: Json,
      seen: seq<Json>, hits: seq<bool>, out: Json)
  {
    var turns := Turns(pc);
    && Meets(matches, turns, body, seen, hits)
    && forall path :: Governed(pc, body, path) ==>
         && (forall t :: 0 <= t <= |turns| ==>
               Get(seen[t], Keys(path)) == Shown(decode, turns[..t], hits[..t], body, path))
         && Get(out, Keys(path)) ==
            if Filtered(matches, pc, seen[|turns|], path) then None else Shown(decode, turns, hits, body, path)
  }

  lemma FilterShows(
      matches: (seq<PayloadModelRule>, Json) -> bool, pc: PayloadConfig, body: Json, j: Json, path: string)
    requires Governed(pc, body, path)
    ensures Get(Payload.Filtered(matches, pc.filter, j), Keys(path)) ==
            if Filtered(matches, pc, j, path) then None else Get(j, Keys(path))
  {
    var paths := FilterPaths(matches, pc.filter, j);
    forall other | other in Order(paths) ensures Beside(path, other) {
      OrderMember(paths, other);
      NamedByFilter(matches, pc.filter, j, other);
    }
    DropsShow(j, Order(paths), path);
    OrderMember(paths, path);
    NamedByFilter(matches, pc.filter, j, path);
  }

  lemma AppliedObeys(
      matches: (seq<PayloadModelRule>, Json) -> bool, decode: string -> Option<Json>, pc: PayloadConfig,
      orders: seq<seq<seq<string>>>, body: Json)
    returns (seen: seq<Json>, hits: seq<bool>)
    requires |orders| == 4
    requires AreOrders(pc.defaults, orders[0]) && AreOrders(pc.defaultRaw, orders[1])
    requires AreOrders(pc.overrides, orders[2]) && AreOrders(pc.overrideRaw, orders[3])
    ensures Obeys(matches, decode, pc, body, seen, hits, Applied(matches, decode, pc, orders, body))
  {
    var turns, os := Turns(pc), orders[0] + orders[1] + orders[2] + orders[3];
    seen := AllRuns(matches, decode, pc, orders, body);
    var bodies := seen;
    hits := seq(|turns|, t requires 0 <= t < |turns| => matches(turns[t].rule.models, bodies[t]));
    forall path | Governed(pc, body, path)
      ensures forall t :: 0 <= t <= |turns| ==>
                Get(seen[t], Keys(path)) == Shown(decode, turns[..t], hits[..t], body, path)
      ensures Get(Applied(matches, decode, pc, orders, body), Keys(path)) ==
              if Filtered(matches, pc, seen[|turns|], path) then None else Shown(decode, turns, hits, body, path)
    {
      forall t | 0 <= t <= |turns|
        ensures Get(seen[t], Keys(path)) == Shown(decode, turns[..t], hits[..t], body, path)
      {
        RunShows(matches, decode, turns, os, seen, hits, path, t);
      }
      assert turns[..|turns|] == turns && hits[..|turns|] == hits;
      FilterShows(matches, pc, body, seen[|turns|], path);
    }
  }

  lemma AllRuns(
      matches: (seq<PayloadModelRule>, Json) -> bool, decode: string -> Option<Json>, pc: PayloadConfig,
      orders: seq<seq<seq<string>>>, body: Json)
    returns (seen: seq<Json>)
    requires |orders| == 4
    requires AreOrders(pc.defaults, orders[0]) && AreOrders(pc.defaultRaw, orders[1])
    requires AreOrders(pc.overrides, orders[2]) && AreOrders(pc.overrideRaw, orders[3])
    ensures Runs(matches, decode, Turns(pc), orders[0] + orders[1] + orders[2] + orders[3], seen)
    ensures seen[0] == body
    ensures Applied(matches, decode, pc, orders, body) == Payload.Filtered(matches, pc.filter, seen[|Turns(pc)|])
  {
    var a := PhaseRuns(matches, decode, Defaults, false, pc.defaults, orders[0], body);
    var b := PhaseRuns(matches, decode, Defaults, true, pc.defaultRaw, orders[1], a[|pc.defaults|]);
    var c := PhaseRuns(matches, decode, Overrides, false, pc.overrides, orders[2], b[|pc.defaultRaw|]);
    var d := PhaseRuns(matches, decode, Overrides, true, pc.overrideRaw, orders[3], c[|pc.overrides|]);
    var ta, tb := TurnsOf(Defaults, false, pc.defaults), TurnsOf(Defaults, true, pc.defaultRaw);
    var tc, td := TurnsOf(Overrides, false, pc.overrides), TurnsOf(Overrides, true, pc.overrideRaw);
    seen := RunsJoin(matches, decode, ta, orders[0], a, tb, orders[1], b);
    seen := RunsJoin(matches, decode, ta + tb, orders[0] + orders[1], seen, tc, orders[2], c);
    seen := RunsJoin(matches, decode, ta + tb + tc, orders[0] + orders[1] + orders[2], seen, td, orders[3], d);
  }

  /** Apply: the five phases in order. What it leaves at a governed path follows from the rules, which of them matched
      in their turn, and the body: nothing if a matching filter names the path, else the last override, else what the
      body held, else the first default, however the maps were walked. */
  method Apply(
      matches: (seq<PayloadModelRule>, Json) -> bool, decode: string -> Option<Json>, pc: PayloadConfig, body: Json)
    returns (out: Json, ghost orders: seq<seq<seq<string>>>, ghost seen: seq<Json>, ghost hits: seq<bool>)
    ensures |orders| == 4
    ensures AreOrders(pc.defaults, orders[0]) && AreOrders(pc.defaultRaw, orders[1])
    ensures AreOrders(pc.overrides, orders[2]) && AreOrders(pc.overrideRaw, orders[3])
    ensures out == Applied(matches, decode, pc, orders, body)
    ensures Obeys(matches, decode, pc, body, seen, hits, out)
  {
    ghost var o0, o1, o2, o3;
    out, o0 := ApplyRules(matches, decode, Defaults, false, pc.defaults, body);
    out, o1 := ApplyRules(matches, decode, Defaults, true, pc.defaultRaw, out);
    out, o2 := ApplyRules(matches, decode, Overrides, false, pc.overrides, out);
    out, o3 := ApplyRules(matches, decode, Overrides, true, pc.overrideRaw, out);
    out := ApplyFilter(matches, pc.filter, out);
    orders := [o0, o1, o2, o3];
    seen, hits := AppliedObeys(matches, decode, pc, orders, body);
  }

  // ---- clauses that do not ask about what the rules write ----

  /** The two bodies show the same at every object path that diverges from all paths of the rules. */
  ghost predicate SameElsewhere(pc: PayloadConfig, i: Json, j: Json) {
    forall p :: Untouched(pc, p) ==> Get(i, p) == Get(j, p)
  }

  ghost predicate Untouched(pc: PayloadConfig, p: seq<string>) {
    && ObjectPath(p)
    && forall t, other :: t in Turns(pc) && other in t.rule.params ==>
         ObjectPath(Keys(other)) && Diverge(p, Keys(other))
  }

  /** Each clause of the rules asks only about what no rule writes. */
  ghost predicate Steady(matches: (seq<PayloadModelRule>, Json) -> bool, pc: PayloadConfig, body: Json) {
    && (forall t, j :: t in Turns(pc) && SameElsewhere(pc, body, j) ==>
          matches(t.rule.models, j) == matches(t.rule.models, body))
    && (forall r, j :: r in pc.filter && SameElsewhere(pc, body, j) ==>
          matches(r.models, j) == matches(r.models, body))
  }

  lemma {:induction false} StepsAcross(kind: Kind, j: Json, ws: seq<Write>, p: seq<string>)
    requires ObjectPath(p) && forall w :: w in ws ==> ObjectPath(w.keys) && Diverge(p, w.keys)
    ensures Get(Steps(kind, j, ws), p) == Get(j, p)
    decreases |ws|
  {
    if ws != [] {
      assert ws[0] in ws;
      GetAcross(j, p, ws[0].keys, ws[0].value);
      StepsAcross(kind, Step(kind, j, ws[0]), ws[1..], p);
    }
  }

  lemma {:induction false} SeenSameElsewhere(
      matches: (seq<PayloadModelRule>, Json) -> bool, decode: string -> Option<Json>, pc: PayloadConfig,
      orders: seq<seq<string>>, seen: seq<Json>, t: nat)
    requires Runs(matches, decode, Turns(pc), orders, seen) && t <= |Turns(pc)|
    ensures SameElsewhere(pc, seen[0], seen[t])
  {
    if t > 0 {
      SeenSameElsewhere(matches, decode, pc, orders, seen, t - 1);
      var u := Turns(pc)[t - 1];
      forall p | Untouched(pc, p) ensures Get(seen[t], p) == Get(seen[0], p) {
        var ws := WritesOf(decode, u.raw, u.rule.params, orders[t - 1]);
        WritesAreParams(decode, u.raw, u.rule.params, orders[t - 1]);
        assert u in Turns(pc);
        StepsAcross(u.kind, seen[t - 1], ws, p);
      }
    }
  }

  /** For such rules everything follows from the body as it came in. */
  lemma SteadyApply(
      matches: (seq<PayloadModelRule>, Json) -> bool, decode: string -> Option<Json>, pc: PayloadConfig,
      orders: seq<seq<seq<string>>>, body: Json, path: string)
    requires |orders| == 4
    requires AreOrders(pc.defaults, orders[0]) && AreOrders(pc.defaultRaw, orders[1])
    requires AreOrders(pc.overrides, orders[2]) && AreOrders(pc.overrideRaw, orders[3])
    requires Steady(matches, pc, body) && Governed(pc, body, path)
    ensures
      var turns := Turns(pc);
      var hits := seq(|turns|, t requires 0 <= t < |turns| => matches(turns[t].rule.models, body));
      Get(Applied(matches, decode, pc, orders, body), Keys(path)) ==
      if Filtered(matches, pc, body, path) then None else Shown(decode, turns, hits, body, path)
  {
    var turns := Turns(pc);
    var os := orders[0] + orders[1] + orders[2] + orders[3];
    var seen := AllRuns(matches, decode, pc, orders, body);
    var hits := seq(|turns|, t requires 0 <= t < |turns| => matches(turns[t].rule.models, body));
    forall t | 0 <= t <= |turns| ensures SameElsewhere(pc, body, seen[t]) {
      SeenSameElsewhere(matches, decode, pc, os, seen, t);
    }
    forall t | 0 <= t < |turns| ensures hits[t] == matches(turns[t].rule.models, seen[t]) {
      assert turns[t] in turns && SameElsewhere(pc, body, seen[t]);
    }
    RunShows(matches, decode, turns, os, seen, hits, path, |turns|);
    assert turns[..|turns|] == turns && hits[..|turns|] == hits;
    FilterShows(matches, pc, body, seen[|turns|], path);
    assert SameElsewhere(pc, body, seen[|turns|]);
  }
}
