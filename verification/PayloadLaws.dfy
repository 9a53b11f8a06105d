/** What the payload rules guarantee: the model field is safe, map order does not show, and which write wins. */
module PayloadLaws {
  import opened Wrappers
  import opened Strings
  import opened JsonTree
  import opened Config
  import opened Payload
  import opened Lists
  import Validate

  // ---- the model field ----

  lemma {:induction false} FirstKey(path: string)
    ensures Keys(path)[0] <= path
    ensures Keys(path)[0] == path || path[|Keys(path)[0]|] == '.'
  {
    if path != "" && path[0] != '.' {
      FirstKey(path[1..]);
      assert Keys(path)[0] == [path[0]] + Keys(path[1..])[0];
      assert path == [path[0]] + path[1..];
    }
  }

  lemma {:induction false} SegmentIs(path: string, key: string)
    requires key <= path && '.' !in key && '[' !in key
    requires key == path || path[|key|] == '.' || path[|key|] == '['
    ensures Validate.FirstPathSegment(path) == key
  {
    if key != "" {
      assert path[0] == key[0];
      assert path[1..][..|key| - 1] == key[1..];
      SegmentIs(path[1..], key[1..]);
      assert key == [key[0]] + key[1..];
    }
  }

  /** A path whose first segment the validator lets pass does not start at the model field. */
  lemma ProtectedKeys(path: string)
    requires Validate.FirstPathSegment(path) != "model"
    ensures Keys(path)[0] != "model"
  {
    FirstKey(path);
    if Keys(path)[0] == "model" {
      SegmentIs(path, "model");
    }
  }

  lemma PutElsewhere(j: Json, keys: seq<string>, v: Json, k: string)
    requires keys != [] && keys[0] != k && !Numeric(k)
    ensures Get(Put(j, keys, v), [k]) == Get(j, [k])
  {
  }

  lemma DropElsewhere(j: Json, keys: seq<string>, k: string)
    requires keys != [] && keys[0] != k && !Numeric(k)
    ensures Get(Drop(j, keys), [k]) == Get(j, [k])
  {
  }

  lemma {:induction false} StepsElsewhere(kind: Kind, j: Json, ws: seq<Write>, k: string)
    requires !Numeric(k) && forall w :: w in ws ==> w.keys != [] && w.keys[0] != k
    ensures Get(Steps(kind, j, ws), [k]) == Get(j, [k])
    decreases |ws|
  {
    if ws != [] {
      assert ws[0] in ws;
      PutElsewhere(j, ws[0].keys, ws[0].value, k);
      StepsElsewhere(kind, Step(kind, j, ws[0]), ws[1..], k);
    }
  }

  lemma {:induction false} WritesAreParams(
      decode: string -> Option<Json>, raw: bool, params: map<string, Json>, order: seq<string>)
    requires forall i :: 0 <= i < |order| ==> order[i] in params
    ensures forall w :: w in WritesOf(decode, raw, params, order) ==>
                          exists p :: p in order && p in params && w.keys == Keys(p)
  {
    if order != [] {
      WritesAreParams(decode, raw, params, order[1..]);
      assert order[0] in order;
    }
  }

  lemma {:induction false} PhaseElsewhere(
      matches: (seq<PayloadModelRule>, Json) -> bool, decode: string -> Option<Json>, kind: Kind, raw: bool,
      rules: seq<PayloadRule>, orders: seq<seq<string>>, j: Json, k: string)
    requires AreOrders(rules, orders) && !Numeric(k)
    requires forall r, p :: 0 <= r < |rules| && p in rules[r].params ==> Keys(p)[0] != k
    ensures Get(Phase(matches, decode, kind, raw, rules, orders, j), [k]) == Get(j, [k])
  {
    if rules != [] {
      var n := |rules| - 1;
      PhaseElsewhere(matches, decode, kind, raw, rules[..n], orders[..n], j, k);
      var before := Phase(matches, decode, kind, raw, rules[..n], orders[..n], j);
      WritesAreParams(decode, raw, rules[n].params, orders[n]);
      StepsElsewhere(kind, before, WritesOf(decode, raw, rules[n].params, orders[n]), k);
    }
  }

  lemma {:induction false} DropsElsewhere(j: Json, paths: seq<string>, k: string)
    requires !Numeric(k) && forall p :: p in paths ==> Keys(p)[0] != k
    ensures Get(Drops(j, paths), [k]) == Get(j, [k])
    decreases |paths|
  {
    if paths != [] {
      assert paths[0] in paths;
      DropElsewhere(j, Keys(paths[0]), k);
      DropsElsewhere(Drop(j, Keys(paths[0])), paths[1..], k);
    }
  }

  lemma {:induction false} FilterPathsAreParams(
      matches: (seq<PayloadModelRule>, Json) -> bool, rules: seq<PayloadFilterRule>, j: Json, p: string)
    requires p in FilterPaths(matches, rules, j)
    ensures exists r :: 0 <= r < |rules| && p in rules[r].params
  {
    var n := |rules| - 1;
    if p in FilterPaths(matches, rules[..n], j) {
      FilterPathsAreParams(matches, rules[..n], j, p);
      var r :| 0 <= r < n && p in rules[..n][r].params;
      assert rules[r] == rules[..n][r];
    }
  }

  /** No param of these rules is the model field, or below it. */
  lemma RulesSpareModel(decode: string -> Option<Json>, pc: PayloadConfig, phase: Validate.Phase, r: int, p: string)
    requires forall e :: !Validate.PayloadProblem(decode, pc, e)
    requires !phase.Filter? && 0 <= r < |Validate.RulesOf(pc, phase)| && p in Validate.RulesOf(pc, phase)[r].params
    ensures Keys(p)[0] != "model"
  {
    assert !Validate.PayloadProblem(decode, pc, Validate.ModelFieldProtected(phase, r, p));
    ProtectedKeys(p);
  }

  lemma PhaseSparesModel(
      matches: (seq<PayloadModelRule>, Json) -> bool, decode: string -> Option<Json>, pc: PayloadConfig,
      phase: Validate.Phase, kind: Kind, orders: seq<seq<string>>, j: Json)
    requires forall e :: !Validate.PayloadProblem(decode, pc, e)
    requires !phase.Filter? && AreOrders(Validate.RulesOf(pc, phase), orders)
    ensures Get(Phase(matches, decode, kind, Validate.IsRaw(phase), Validate.RulesOf(pc, phase), orders, j), ["model"]) ==
            Get(j, ["model"])
  {
    var rules := Validate.RulesOf(pc, phase);
    forall r, p | 0 <= r < |rules| && p in rules[r].params ensures Keys(p)[0] != "model" {
      RulesSpareModel(decode, pc, phase, r, p);
    }
    assert !IsDigit("model"[0]);
    PhaseElsewhere(matches, decode, kind, Validate.IsRaw(phase), rules, orders, j, "model");
  }

  lemma FilterPathsSpareModel(
      matches: (seq<PayloadModelRule>, Json) -> bool, decode: string -> Option<Json>, pc: PayloadConfig, j: Json, p: string)
    requires forall e :: !Validate.PayloadProblem(decode, pc, e)
    requires p in FilterPaths(matches, pc.filter, j)
    ensures Keys(p)[0] != "model"
  {
    FilterPathsAreParams(matches, pc.filter, j, p);
    var r :| 0 <= r < |pc.filter| && p in pc.filter[r].params;
    assert !Validate.PayloadProblem(decode, pc, Validate.ModelFieldProtected(Validate.Filter, r, p));
    ProtectedKeys(p);
  }

  lemma FilterSparesModel(
      matches: (seq<PayloadModelRule>, Json) -> bool, decode: string -> Option<Json>, pc: PayloadConfig, j: Json)
    requires forall e :: !Validate.PayloadProblem(decode, pc, e)
    ensures Get(Filtered(matches, pc.filter, j), ["model"]) == Get(j, ["model"])
  {
    var paths := Order(FilterPaths(matches, pc.filter, j));
    forall p | p in paths ensures Keys(p)[0] != "model" {
      OrderMember(FilterPaths(matches, pc.filter, j), p);
      FilterPathsSpareModel(matches, decode, pc, j, p);
    }
    assert !IsDigit("model"[0]);
    DropsElsewhere(j, paths, "model");
  }

  /** Rules the validator accepts leave the top-level model alone, through all five phases, in any map order. */
  lemma ApplyKeepsModel(
      matches: (seq<PayloadModelRule>, Json) -> bool, decode: string -> Option<Json>, pc: PayloadConfig,
      orders: seq<seq<seq<string>>>, j: Json)
    requires |orders| == 4
    requires AreOrders(pc.defaults, orders[0]) && AreOrders(pc.defaultRaw, orders[1])
    requires AreOrders(pc.overrides, orders[2]) && AreOrders(pc.overrideRaw, orders[3])
    requires forall e :: !Validate.PayloadProblem(decode, pc, e)
    ensures Get(Applied(matches, decode, pc, orders, j), ["model"]) == Get(j, ["model"])
  {
    var a := Phase(matches, decode, Defaults, false, pc.defaults, orders[0], j);
    var b := Phase(matches, decode, Defaults, true, pc.defaultRaw, orders[1], a);
    var c := Phase(matches, decode, Overrides, false, pc.overrides, orders[2], b);
    var d := Phase(matches, decode, Overrides, true, pc.overrideRaw, orders[3], c);
    PhaseSparesModel(matches, decode, pc, Validate.Default, Defaults, orders[0], j);
    PhaseSparesModel(matches, decode, pc, Validate.DefaultRaw, Defaults, orders[1], a);
    PhaseSparesModel(matches, decode, pc, Validate.Override, Overrides, orders[2], b);
    PhaseSparesModel(matches, decode, pc, Validate.OverrideRaw, Overrides, orders[3], c);
    FilterSparesModel(matches, decode, pc, d);
  }

  // ---- writes at diverging object paths ----

  predicate ObjectPath(keys: seq<string>) {
    keys != [] && forall i :: 0 <= i < |keys| ==> !Numeric(keys[i])
  }

  /** Neither path is a prefix of the other. */
  predicate Diverge(p: seq<string>, q: seq<string>) {
    !(p <= q) && !(q <= p)
  }

  lemma PrefixTail(p: seq<string>, q: seq<string>)
    requires p != [] && q != [] && p[0] == q[0]
    ensures p <= q <==> p[1..] <= q[1..]
  {
    assert p == [p[0]] + p[1..] && q == [q[0]] + q[1..];
  }

  lemma DivergeTail(p: seq<string>, q: seq<string>)
    requires Diverge(p, q) && p[0] == q[0]
    ensures p[1..] != [] && q[1..] != [] && Diverge(p[1..], q[1..])
  {
    PrefixTail(p, q);
    PrefixTail(q, p);
  }

  function Fields(j: Json): map<string, Json> {
    if j.Obj? then j.fields else map[]
  }

  lemma PutNothing(keys: seq<string>, v: Json)
    ensures Put(Null, keys, v) == Build(keys, v)
  {
  }

  /** One key down: what a write at an object path does to anything but an array. */
  lemma PutInObject(j: Json, keys: seq<string>, v: Json)
    requires ObjectPath(keys) && !j.Arr?
    ensures Put(j, keys, v) == Obj(Fields(j)[keys[0] := Put(At(Fields(j), keys[0]), keys[1..], v)])
  {
    PutNothing(keys[1..], v);
    assert !Numeric(keys[0]);
    var fields := Fields(j);
    if j.Obj? && keys[0] in fields && Set(fields[keys[0]], keys[1..], v).None? {
      assert fields[keys[0] := fields[keys[0]]] == fields;
    } else if !j.Obj? {
      assert fields[keys[0] := Build(keys[1..], v)] == map[keys[0] := Build(keys[1..], v)];
    }
  }

  lemma TailIsObjectPath(keys: seq<string>)
    requires ObjectPath(keys) && |keys| > 1
    ensures ObjectPath(keys[1..])
  {
  }

  function At(fields: map<string, Json>, key: string): Json {
    if key in fields then fields[key] else Null
  }

  /** Writes at diverging object paths commute, errors included. */
  lemma {:induction false} PutsCommute(j: Json, p: seq<string>, q: seq<string>, v: Json, w: Json)
    requires ObjectPath(p) && ObjectPath(q) && Diverge(p, q)
    ensures Put(Put(j, p, v), q, w) == Put(Put(j, q, w), p, v)
    decreases |p|
  {
    if !j.Arr? {
      var fields := Fields(j);
      TwoPuts(j, p, q, v, w);
      TwoPuts(j, q, p, w, v);
      if p[0] == q[0] {
        DivergeTail(p, q);
        TailIsObjectPath(p);
        TailIsObjectPath(q);
        PutsCommute(At(fields, p[0]), p[1..], q[1..], v, w);
      } else {
        UpdatesCommute(fields, p[0], q[0], Put(At(fields, p[0]), p[1..], v), Put(At(fields, q[0]), q[1..], w));
      }
    }
  }

  lemma UpdatesCommute(fields: map<string, Json>, k: string, l: string, a: Json, b: Json)
    requires k != l
    ensures fields[k := a][l := b] == fields[l := b][k := a]
  {
  }

  lemma TwoPuts(j: Json, p: seq<string>, q: seq<string>, v: Json, w: Json)
    requires ObjectPath(p) && ObjectPath(q) && !j.Arr?
    ensures
      var fields := Fields(j);
      var a := Put(At(fields, p[0]), p[1..], v);
      Put(Put(j, p, v), q, w) ==
      if p[0] == q[0] then Obj(fields[p[0] := Put(a, q[1..], w)])
      else Obj(fields[p[0] := a][q[0] := Put(At(fields, q[0]), q[1..], w)])
  {
    PutInObject(j, p, v);
    PutInObject(Put(j, p, v), q, w);
    var fields := Fields(j);
    var a := Put(At(fields, p[0]), p[1..], v);
    if p[0] == q[0] {
      assert fields[p[0] := a][p[0] := Put(a, q[1..], w)] == fields[p[0] := Put(a, q[1..], w)];
    }
  }

  lemma GetInObject(j: Json, keys: seq<string>)
    requires ObjectPath(keys) && !j.Arr?
    ensures Get(j, keys) == if keys[0] in Fields(j) then Get(Fields(j)[keys[0]], keys[1..]) else None
  {
  }

  /** A write is not seen from a diverging object path. */
  lemma {:induction false} GetAcross(j: Json, p: seq<string>, q: seq<string>, w: Json)
    requires ObjectPath(p) && ObjectPath(q) && Diverge(p, q)
    ensures Get(Put(j, q, w), p) == Get(j, p)
    decreases |p|
  {
    if !j.Arr? {
      PutInObject(j, q, w);
      GetInObject(j, p);
      GetInObject(Put(j, q, w), p);
      if p[0] == q[0] {
        DivergeTail(p, q);
        TailIsObjectPath(p);
        TailIsObjectPath(q);
        var fields := Fields(j);
        GetAcross(At(fields, p[0]), p[1..], q[1..], w);
      }
    }
  }

  lemma StepsCommute(kind: Kind, j: Json, a: Write, b: Write)
    requires ObjectPath(a.keys) && ObjectPath(b.keys) && Diverge(a.keys, b.keys)
    ensures Step(kind, Step(kind, j, a), b) == Step(kind, Step(kind, j, b), a)
  {
    PutsCommute(j, a.keys, b.keys, a.value, b.value);
    GetAcross(j, a.keys, b.keys, b.value);
    GetAcross(j, b.keys, a.keys, a.value);
  }

  // ---- map order ----

  /** The writes of one rule do not touch each other. */
  ghost predicate Independent(ws: seq<Write>) {
    && (forall i :: 0 <= i < |ws| ==> ObjectPath(ws[i].keys))
    && (forall i, j :: 0 <= i < |ws| && 0 <= j < |ws| && i != j ==> Diverge(ws[i].keys, ws[j].keys))
  }

  lemma {:induction false} MoveToFront(kind: Kind, j: Json, ws: seq<Write>, i: nat)
    requires Independent(ws) && i < |ws|
    ensures Steps(kind, j, ws) == Steps(kind, Step(kind, j, ws[i]), ws[..i] + ws[i + 1..])
    decreases i
  {
    if i == 0 {
      assert ws[..0] + ws[1..] == ws[1..];
    } else {
      MoveToFront(kind, Step(kind, j, ws[0]), ws[1..], i - 1);
      StepsCommute(kind, j, ws[0], ws[i]);
      RestOf(ws, i);
    }
  }

  lemma RestOf<T>(s: seq<T>, i: nat)
    requires 0 < i < |s|
    ensures
      var rest := s[..i] + s[i + 1..];
      rest != [] && rest[0] == s[0] && rest[1..] == s[1..][..i - 1] + s[1..][i..] && s[1..][i - 1] == s[i]
  {
  }

  lemma IndependentWithout(ws: seq<Write>, i: nat)
    requires Independent(ws) && i < |ws|
    ensures Independent(ws[..i] + ws[i + 1..])
  {
    var rest := ws[..i] + ws[i + 1..];
    forall k | 0 <= k < |rest| ensures rest[k] == ws[Up(i, k)] && ObjectPath(rest[k].keys) {
    }
    forall k, l | 0 <= k < |rest| && 0 <= l < |rest| && k != l ensures Diverge(rest[k].keys, rest[l].keys) {
      assert rest[k] == ws[Up(i, k)] && rest[l] == ws[Up(i, l)];
    }
  }

  lemma PullOut<T>(a: seq<T>, b: seq<T>) returns (i: nat)
    requires a != [] && multiset(a) == multiset(b)
    ensures i < |b| && b[i] == a[0]
    ensures multiset(b[..i] + b[i + 1..]) == multiset(a[1..])
  {
    assert a == [a[0]] + a[1..];
    assert a[0] in multiset(b);
    i :| 0 <= i < |b| && b[i] == a[0];
    assert b == b[..i] + [b[i]] + b[i + 1..];
    assert multiset(b[..i] + b[i + 1..]) == multiset(b) - multiset{b[i]};
    assert multiset(a[1..]) == multiset(a) - multiset{a[0]};
  }

  lemma IndependentTail(ws: seq<Write>)
    requires Independent(ws) && ws != []
    ensures Independent(ws[1..])
  {
    IndependentWithout(ws, 0);
    assert ws[..0] + ws[1..] == ws[1..];
  }

  /** The same independent writes in any two orders come to the same body. */
  lemma {:induction false} OrderDoesNotShow(kind: Kind, j: Json, a: seq<Write>, b: seq<Write>)
    requires Independent(a) && Independent(b) && multiset(a) == multiset(b)
    ensures Steps(kind, j, a) == Steps(kind, j, b)
    decreases |a|
  {
    if a == [] {
      assert |multiset(b)| == 0;
    } else {
      var i := PullOut(a, b);
      MoveToFront(kind, j, b, i);
      IndependentTail(a);
      IndependentWithout(b, i);
      OrderDoesNotShow(kind, Step(kind, j, a[0]), a[1..], b[..i] + b[i + 1..]);
    }
  }

  /** The params of a rule are at object paths, none a prefix of another. */
  ghost predicate IndependentParams(params: map<string, Json>) {
    && (forall p :: p in params ==> ObjectPath(Keys(p)))
    && (forall p, q :: p in params && q in params && p != q ==> Diverge(Keys(p), Keys(q)))
  }

  lemma {:induction false} WritesIndependent(
      decode: string -> Option<Json>, raw: bool, params: map<string, Json>, order: seq<string>)
    requires IndependentParams(params)
    requires forall i :: 0 <= i < |order| ==> order[i] in params
    requires forall i, j :: 0 <= i < j < |order| ==> order[i] != order[j]
    ensures Independent(WritesOf(decode, raw, params, order))
  {
    if order != [] {
      var rest := WritesOf(decode, raw, params, order[1..]);
      WritesIndependent(decode, raw, params, order[1..]);
      WritesAreParams(decode, raw, params, order[1..]);
      var v := ValueOf(decode, raw, params[order[0]]);
      if v.Some? {
        forall i | 0 <= i < |rest| ensures Diverge(Keys(order[0]), rest[i].keys) && Diverge(rest[i].keys, Keys(order[0])) {
          assert rest[i] in rest;
          var p :| p in order[1..] && p in params && rest[i].keys == Keys(p);
        }
        assert order[0] in params;
        IndependentCons(Write(Keys(order[0]), v.value), rest);
      }
    }
  }

  lemma IndependentCons(w: Write, ws: seq<Write>)
    requires Independent(ws) && ObjectPath(w.keys)
    requires forall i :: 0 <= i < |ws| ==> Diverge(w.keys, ws[i].keys) && Diverge(ws[i].keys, w.keys)
    ensures Independent([w] + ws)
  {
    var all := [w] + ws;
    forall i | 0 < i < |all| ensures all[i] == ws[i - 1] {
    }
    forall i, j | 0 <= i < |all| && 0 <= j < |all| && i != j ensures Diverge(all[i].keys, all[j].keys) {
      if i == 0 {
        assert all[j] == ws[j - 1];
      } else if j == 0 {
        assert all[i] == ws[i - 1];
      } else {
        assert all[i] == ws[i - 1] && all[j] == ws[j - 1];
      }
    }
  }

  lemma {:induction false} WritesAppend(
      decode: string -> Option<Json>, raw: bool, params: map<string, Json>, a: seq<string>, b: seq<string>)
    requires forall i :: 0 <= i < |a| ==> a[i] in params
    requires forall i :: 0 <= i < |b| ==> b[i] in params
    ensures WritesOf(decode, raw, params, a + b) == WritesOf(decode, raw, params, a) + WritesOf(decode, raw, params, b)
  {
    if a == [] {
      assert a + b == b;
    } else {
      WritesAppend(decode, raw, params, a[1..], b);
      assert (a + b)[0] == a[0] && (a + b)[1..] == a[1..] + b;
      var v := ValueOf(decode, raw, params[a[0]]);
      Regroup(if v.Some? then [Write(Keys(a[0]), v.value)] else [], WritesOf(decode, raw, params, a[1..]),
              WritesOf(decode, raw, params, b));
    }
  }

  lemma WritesPull(
      decode: string -> Option<Json>, raw: bool, params: map<string, Json>, b: seq<string>, i: nat)
    requires i < |b| && forall k :: 0 <= k < |b| ==> b[k] in params
    ensures multiset(WritesOf(decode, raw, params, b)) ==
            multiset(WritesOf(decode, raw, params, [b[i]])) +
            multiset(WritesOf(decode, raw, params, b[..i] + b[i + 1..]))
  {
    var front, back := b[..i], b[i + 1..];
    assert b == front + ([b[i]] + back);
    WritesAppend(decode, raw, params, front, [b[i]] + back);
    WritesAppend(decode, raw, params, [b[i]], back);
    WritesAppend(decode, raw, params, front, back);
  }

  /** Two orders of the same params write the same things. */
  lemma {:induction false} WritesPermute(
      decode: string -> Option<Json>, raw: bool, params: map<string, Json>, a: seq<string>, b: seq<string>)
    requires forall i :: 0 <= i < |a| ==> a[i] in params
    requires forall i :: 0 <= i < |b| ==> b[i] in params
    requires multiset(a) == multiset(b)
    ensures multiset(WritesOf(decode, raw, params, a)) == multiset(WritesOf(decode, raw, params, b))
    decreases |a|
  {
    if a == [] {
      assert |multiset(b)| == 0;
    } else {
      var i := PullOut(a, b);
      StillIn(params, b, i);
      WritesPermute(decode, raw, params, a[1..], b[..i] + b[i + 1..]);
      PermuteStep(decode, raw, params, a, b, i, b[..i] + b[i + 1..]);
    }
  }

  lemma WritesFirst(decode: string -> Option<Json>, raw: bool, params: map<string, Json>, a: seq<string>)
    requires a != [] && forall k :: 0 <= k < |a| ==> a[k] in params
    ensures multiset(WritesOf(decode, raw, params, a)) ==
            multiset(WritesOf(decode, raw, params, [a[0]])) + multiset(WritesOf(decode, raw, params, a[1..]))
  {
    assert a == [a[0]] + a[1..];
    WritesAppend(decode, raw, params, [a[0]], a[1..]);
  }

  lemma PermuteStep(
      decode: string -> Option<Json>, raw: bool, params: map<string, Json>, a: seq<string>, b: seq<string>, i: nat,
      rest: seq<string>)
    requires a != [] && i < |b| && b[i] == a[0] && rest == b[..i] + b[i + 1..]
    requires forall k :: 0 <= k < |a| ==> a[k] in params
    requires forall k :: 0 <= k < |b| ==> b[k] in params
    requires forall k :: 0 <= k < |rest| ==> rest[k] in params
    requires multiset(WritesOf(decode, raw, params, a[1..])) == multiset(WritesOf(decode, raw, params, rest))
    ensures multiset(WritesOf(decode, raw, params, a)) == multiset(WritesOf(decode, raw, params, b))
  {
    WritesPull(decode, raw, params, b, i);
    WritesFirst(decode, raw, params, a);
  }

  lemma StillIn(params: map<string, Json>, b: seq<string>, i: nat)
    requires i < |b| && forall k :: 0 <= k < |b| ==> b[k] in params
    ensures
      var rest := b[..i] + b[i + 1..];
      forall k :: 0 <= k < |rest| ==> rest[k] in params
  {
    var rest := b[..i] + b[i + 1..];
    forall k | 0 <= k < |rest| ensures rest[k] in params {
      assert rest[k] == b[Up(i, k)];
    }
  }

  lemma SameMembers(a: seq<string>, b: seq<string>)
    requires forall i, j :: 0 <= i < j < |a| ==> a[i] != a[j]
    requires forall i, j :: 0 <= i < j < |b| ==> b[i] != b[j]
    requires forall p :: p in a <==> p in b
    ensures multiset(a) == multiset(b)
  {
    forall x ensures multiset(a)[x] == multiset(b)[x] {
      Once(a, x);
      Once(b, x);
    }
  }

  /** One rule: the order its map is walked in does not show. */
  lemma RuleOrderDoesNotShow(
      decode: string -> Option<Json>, kind: Kind, raw: bool, params: map<string, Json>, a: seq<string>, b: seq<string>,
      j: Json)
    requires IndependentParams(params) && IsOrder(params, a) && IsOrder(params, b)
    ensures Steps(kind, j, WritesOf(decode, raw, params, a)) == Steps(kind, j, WritesOf(decode, raw, params, b))
  {
    SameMembers(a, b);
    WritesPermute(decode, raw, params, a, b);
    WritesIndependent(decode, raw, params, a);
    WritesIndependent(decode, raw, params, b);
    OrderDoesNotShow(kind, j, WritesOf(decode, raw, params, a), WritesOf(decode, raw, params, b));
  }

  /** A whole phase gives one result, whatever orders its rules' maps are walked in. */
  lemma {:induction false} PhaseIsDeterministic(
      matches: (seq<PayloadModelRule>, Json) -> bool, decode: string -> Option<Json>, kind: Kind, raw: bool,
      rules: seq<PayloadRule>, a: seq<seq<string>>, b: seq<seq<string>>, j: Json)
    requires AreOrders(rules, a) && AreOrders(rules, b)
    requires forall r :: 0 <= r < |rules| ==> IndependentParams(rules[r].params)
    ensures Phase(matches, decode, kind, raw, rules, a, j) == Phase(matches, decode, kind, raw, rules, b, j)
  {
    if rules != [] {
      var n := |rules| - 1;
      PhaseIsDeterministic(matches, decode, kind, raw, rules[..n], a[..n], b[..n], j);
      var before := Phase(matches, decode, kind, raw, rules[..n], a[..n], j);
      RuleOrderDoesNotShow(decode, kind, raw, rules[n].params, a[n], b[n], before);
    }
  }

  // ---- which write wins ----

  /** Nothing on the way to the path is an array. */
  predicate Reaches(j: Json, keys: seq<string>) {
    keys == [] || (!j.Arr? && (keys[0] in Fields(j) ==> Reaches(Fields(j)[keys[0]], keys[1..])))
  }

  lemma {:induction false} GetPut(j: Json, keys: seq<string>, v: Json)
    requires Reaches(j, keys) && forall i :: 0 <= i < |keys| ==> !Numeric(keys[i])
    ensures Get(Put(j, keys, v), keys) == Some(v)
    ensures Reaches(Put(j, keys, v), keys)
    decreases |keys|
  {
    if keys != [] {
      assert !Numeric(keys[0]);
      PutInObject(j, keys, v);
      GetPut(At(Fields(j), keys[0]), keys[1..], v);
    }
  }

  lemma {:induction false} ReachesAfter(j: Json, p: seq<string>, q: seq<string>, w: Json)
    requires Reaches(j, p) && ObjectPath(p) && ObjectPath(q) && Diverge(p, q)
    ensures Reaches(Put(j, q, w), p)
    decreases |p|
  {
    PutInObject(j, q, w);
    if p[0] == q[0] {
      DivergeTail(p, q);
      TailIsObjectPath(p);
      TailIsObjectPath(q);
      ReachesAfter(At(Fields(j), p[0]), p[1..], q[1..], w);
    }
  }

  function LastTo(ws: seq<Write>, p: seq<string>): Option<Json> {
    if ws == [] then None
    else if ws[|ws| - 1].keys == p then Some(ws[|ws| - 1].value)
    else LastTo(ws[..|ws| - 1], p)
  }

  function FirstTo(ws: seq<Write>, p: seq<string>): Option<Json> {
    if ws == [] then None else if ws[0].keys == p then Some(ws[0].value) else FirstTo(ws[1..], p)
  }

  /** The writes of a phase are at object paths that equal this one or diverge from it. */
  ghost predicate Apart(ws: seq<Write>, p: seq<string>) {
    ObjectPath(p) && forall i :: 0 <= i < |ws| ==> ObjectPath(ws[i].keys) && (ws[i].keys == p || Diverge(p, ws[i].keys))
  }

  /** Overrides: the last write to a path wins. */
  lemma {:induction false} LastOverrideWins(j: Json, ws: seq<Write>, p: seq<string>)
    requires Apart(ws, p) && Reaches(j, p)
    ensures Reaches(Steps(Overrides, j, ws), p)
    ensures Get(Steps(Overrides, j, ws), p) == if LastTo(ws, p).Some? then LastTo(ws, p) else Get(j, p)
  {
    if ws != [] {
      var front, w := ws[..|ws| - 1], ws[|ws| - 1];
      assert ws == front + [w];
      LastOverrideWins(j, front, p);
      StepsSnoc(Overrides, j, front, w);
      var before := Steps(Overrides, j, front);
      if w.keys == p {
        GetPut(before, p, w.value);
      } else {
        GetAcross(before, p, w.keys, w.value);
        ReachesAfter(before, p, w.keys, w.value);
      }
    }
  }

  /** Defaults: what is there stays, else the first write to a path wins. */
  lemma {:induction false} FirstDefaultWins(j: Json, ws: seq<Write>, p: seq<string>)
    requires Apart(ws, p) && Reaches(j, p)
    ensures Get(Steps(Defaults, j, ws), p) == if Get(j, p).Some? then Get(j, p) else FirstTo(ws, p)
    decreases |ws|
  {
    if ws != [] {
      var w := ws[0];
      var after := Step(Defaults, j, w);
      if w.keys == p {
        GetPut(j, p, w.value);
      } else {
        GetAcross(j, p, w.keys, w.value);
        ReachesAfter(j, p, w.keys, w.value);
      }
      FirstDefaultWins(after, ws[1..], p);
    }
  }

  /** All the writes of a phase, rule after rule. */
  ghost function PhaseWrites(
      matches: (seq<PayloadModelRule>, Json) -> bool, decode: string -> Option<Json>, kind: Kind, raw: bool,
      rules: seq<PayloadRule>, orders: seq<seq<string>>, j: Json): seq<Write>
    requires AreOrders(rules, orders)
  {
    if rules == [] then []
    else
      var n := |rules| - 1;
      var before := Phase(matches, decode, kind, raw, rules[..n], orders[..n], j);
      PhaseWrites(matches, decode, kind, raw, rules[..n], orders[..n], j) +
      if matches(rules[n].models, before) then WritesOf(decode, raw, rules[n].params, orders[n]) else []
  }

  lemma {:induction false} StepsAppend(kind: Kind, j: Json, a: seq<Write>, b: seq<Write>)
    ensures Steps(kind, j, a + b) == Steps(kind, Steps(kind, j, a), b)
    decreases |a|
  {
    if a == [] {
      assert a + b == b;
    } else {
      StepsAppend(kind, Step(kind, j, a[0]), a[1..], b);
      assert (a + b)[1..] == a[1..] + b;
    }
  }

  lemma {:induction false} PhaseIsItsWrites(
      matches: (seq<PayloadModelRule>, Json) -> bool, decode: string -> Option<Json>, kind: Kind, raw: bool,
      rules: seq<PayloadRule>, orders: seq<seq<string>>, j: Json)
    requires AreOrders(rules, orders)
    ensures Phase(matches, decode, kind, raw, rules, orders, j) ==
            Steps(kind, j, PhaseWrites(matches, decode, kind, raw, rules, orders, j))
  {
    if rules != [] {
      var n := |rules| - 1;
      PhaseIsItsWrites(matches, decode, kind, raw, rules[..n], orders[..n], j);
      var writes := PhaseWrites(matches, decode, kind, raw, rules[..n], orders[..n], j);
      StepsAppend(kind, j, writes, WritesOf(decode, raw, rules[n].params, orders[n]));
      assert writes + [] == writes;
    }
  }

  /** The winner in a phase, of all the writes of all its matching rules. */
  lemma WinnerOfPhase(
      matches: (seq<PayloadModelRule>, Json) -> bool, decode: string -> Option<Json>, kind: Kind, raw: bool,
      rules: seq<PayloadRule>, orders: seq<seq<string>>, j: Json, p: seq<string>)
    requires AreOrders(rules, orders) && Reaches(j, p)
    requires Apart(PhaseWrites(matches, decode, kind, raw, rules, orders, j), p)
    ensures
      var ws := PhaseWrites(matches, decode, kind, raw, rules, orders, j);
      Get(Phase(matches, decode, kind, raw, rules, orders, j), p) ==
      match kind
      case Defaults => if Get(j, p).Some? then Get(j, p) else FirstTo(ws, p)
      case Overrides => if LastTo(ws, p).Some? then LastTo(ws, p) else Get(j, p)
  {
    PhaseIsItsWrites(matches, decode, kind, raw, rules, orders, j);
    var ws := PhaseWrites(matches, decode, kind, raw, rules, orders, j);
    if kind.Defaults? {
      FirstDefaultWins(j, ws, p);
    } else {
      LastOverrideWins(j, ws, p);
    }
  }

  // ---- writes at any path, arrays included ----

  lemma {:induction false} BuildShows(keys: seq<string>, v: Json)
    ensures Get(Build(keys, v), keys) == Some(v)
  {
    if keys != [] {
      BuildShows(keys[1..], v);
      if Numeric(keys[0]) {
        var n := Number(keys[0]);
        var items := Nulls(n) + [Build(keys[1..], v)];
        assert items[n] == Build(keys[1..], v);
      }
    }
  }

  /** A write that does not fail shows, at any path in any body. */
  lemma {:induction false} SetShows(j: Json, keys: seq<string>, v: Json)
    requires Set(j, keys, v).Some?
    ensures Get(Set(j, keys, v).value, keys) == Some(v)
    decreases |keys|
  {
    if keys != [] {
      BuildShows(keys, v);
      BuildShows(keys[1..], v);
      match j
      case Obj(fields) =>
        if keys[0] in fields {
          SetShows(fields[keys[0]], keys[1..], v);
        }
      case Arr(items) =>
        var n := Number(keys[0]);
        if n < |items| {
          SetShows(items[n], keys[1..], v);
        } else {
          var all := items + Nulls(n - |items|) + [Build(keys[1..], v)];
          assert |items + Nulls(n - |items|)| == n && all[n] == Build(keys[1..], v);
        }
      case _ =>
    }
  }

  /** A write fails exactly where it meets an array with a key that is no index. */
  predicate Blocked(j: Json, keys: seq<string>) {
    keys != [] &&
    match j
    case Obj(fields) => keys[0] in fields && Blocked(fields[keys[0]], keys[1..])
    case Arr(items) => !Numeric(keys[0]) || (Number(keys[0]) < |items| && Blocked(items[Number(keys[0])], keys[1..]))
    case _ => false
  }

  lemma {:induction false} SetFailsWhenBlocked(j: Json, keys: seq<string>, v: Json)
    ensures Set(j, keys, v).None? <==> Blocked(j, keys)
    decreases |keys|
  {
    if keys != [] {
      match j
      case Obj(fields) =>
        if keys[0] in fields {
          SetFailsWhenBlocked(fields[keys[0]], keys[1..], v);
        }
      case Arr(items) =>
        if Numeric(keys[0]) && Number(keys[0]) < |items| {
          SetFailsWhenBlocked(items[Number(keys[0])], keys[1..], v);
        }
      case _ =>
    }
  }

  /** A write into an array leaves every other item in its place, and fills up with nulls to where it goes. */
  lemma ArrayWrite(items: seq<Json>, key: string, rest: seq<string>, v: Json)
    requires Set(Arr(items), [key] + rest, v).Some? && Numeric(key)
    ensures
      var out, n := Set(Arr(items), [key] + rest, v).value, Number(key);
      && out.Arr? && |out.items| == (if n < |items| then |items| else n + 1)
      && forall i :: 0 <= i < |out.items| && i != n ==> out.items[i] == if i < |items| then items[i] else Null
  {
    assert ([key] + rest)[1..] == rest;
  }
}
