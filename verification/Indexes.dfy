/** internal/indexes/indexes.go: the lookup tables built from a validated config, and alias resolution. */
module Indexes {
  import opened Wrappers
  import opened Strings
  import opened Sorting
  import opened JsonTree
  import opened Config
  import Validate
  import Glob
  import Lists

  datatype ResolvedModel = ResolvedModel(
    providerName: string,
    protocol: string,
    upstreamModel: string,
    aliasA: string,
    internalID: string)

  datatype ProviderEntry = ProviderEntry(
    name: string,
    protocol: string,
    url: string,
    urls: map<string, string>,
    key: string,
    headers: map<string, string>,
    maxConcurrency: int)

  datatype Candidate = Candidate(internalID: string, aliasB: string, priority: int, order: nat)

  datatype WildcardRoute = WildcardRoute(pattern: string, candidates: seq<Candidate>)

  /** The contents of a KeyContext. */
  datatype Context = Context(
    name: string,
    key: string,
    disabled: bool,
    allowed: set<string>,
    routing: map<string, seq<Candidate>>,
    wildcards: seq<WildcardRoute>,
    aliasBs: seq<string>)

  predicate HasStar(alias: string) {
    '*' in alias
  }

  // ---- candidate order ----

  /** Priority descending, then config order. */
  predicate Before(a: Candidate, b: Candidate) {
    a.priority > b.priority || (a.priority == b.priority && a.order < b.order)
  }

  predicate Ordered(cs: seq<Candidate>) {
    SortedBy(Before, cs)
  }

  lemma BeforeIsWeakOrder()
    ensures WeakOrder(Before)
  {
  }

  /** sort.SliceStable with the comparison above. */
  function SortCandidates(cs: seq<Candidate>): (r: seq<Candidate>)
    ensures Ordered(r)
    ensures multiset(r) == multiset(cs)
    ensures |r| == |cs|
  {
    BeforeIsWeakOrder();
    var r := Sort(Before, cs);
    assert |r| == |multiset(r)|;
    r
  }

  // ---- a key's candidates, and the plain scan over them ----

  /** The candidates with this alias, in config order. */
  function Select(alias: string, cands: seq<Candidate>): (r: seq<Candidate>)
    ensures forall c :: c in r <==> c in cands && c.aliasB == alias
  {
    if cands == [] then []
    else
      var last := cands[|cands| - 1];
      Select(alias, cands[..|cands| - 1]) + if last.aliasB == alias then [last] else []
  }

  /** The first candidate whose alias is a wildcard that matches the request. */
  ghost function FirstMatching(cands: seq<Candidate>, requested: string): (r: Option<string>)
    ensures r.None? <==> forall c :: c in cands ==> !(HasStar(c.aliasB) && Glob.Denotes(c.aliasB, requested))
    ensures r.Some? ==> HasStar(r.value) && Glob.Denotes(r.value, requested) && exists c :: c in cands && c.aliasB == r.value
  {
    if cands == [] then None
    else
      var front, last := cands[..|cands| - 1], cands[|cands| - 1];
      assert cands == front + [last];
      if FirstMatching(front, requested).Some? then FirstMatching(front, requested)
      else if HasStar(last.aliasB) && Glob.Denotes(last.aliasB, requested) then Some(last.aliasB)
      else None
  }

  /** What the design promises: the models whose alias is the requested name itself, else those sharing the first
      declared wildcard that matches it, in candidate order; nothing else. */
  ghost function Scan(cands: seq<Candidate>, requested: string): seq<Candidate> {
    if !HasStar(requested) && Select(requested, cands) != [] then SortCandidates(Select(requested, cands))
    else
      match FirstMatching(cands, requested)
      case Some(pattern) => SortCandidates(Select(pattern, cands))
      case None => []
  }

  // ---- one key's routing tables ----

  /** The distinct aliases, wildcard or not, in order of first declaration. */
  function Aliases(star: bool, cands: seq<Candidate>): (r: seq<string>)
    ensures forall i, j :: 0 <= i < j < |r| ==> r[i] != r[j]
  {
    if cands == [] then []
    else
      var before := Aliases(star, cands[..|cands| - 1]);
      var alias := cands[|cands| - 1].aliasB;
      if HasStar(alias) == star && alias !in before then before + [alias] else before
  }

  lemma {:induction false} AliasesMeaning(star: bool, cands: seq<Candidate>, alias: string)
    ensures alias in Aliases(star, cands) <==> HasStar(alias) == star && exists c :: c in cands && c.aliasB == alias
  {
    if cands != [] {
      var front, last := cands[..|cands| - 1], cands[|cands| - 1];
      assert cands == front + [last];
      AliasesMeaning(star, front, alias);
    }
  }

  /** The groups before sorting. */
  function Groups(cands: seq<Candidate>): seq<WildcardRoute> {
    RoutesFor(Aliases(true, cands), cands)
  }

  function RoutesFor(patterns: seq<string>, cands: seq<Candidate>): seq<WildcardRoute> {
    seq(|patterns|, i requires 0 <= i < |patterns| => WildcardRoute(patterns[i], Select(patterns[i], cands)))
  }

  function ExactGroups(cands: seq<Candidate>): map<string, seq<Candidate>> {
    map a | a in Aliases(false, cands) :: Select(a, cands)
  }

  function SortRoutes(routes: seq<WildcardRoute>): seq<WildcardRoute> {
    seq(|routes|, i requires 0 <= i < |routes| => routes[i].(candidates := SortCandidates(routes[i].candidates)))
  }

  function SortRouting(routing: map<string, seq<Candidate>>): map<string, seq<Candidate>> {
    map a | a in routing :: SortCandidates(routing[a])
  }

  /** The routing context of one key. */
  function ContextOf(k: ClientApiKey, cands: seq<Candidate>): Context {
    Context(
      k.name,
      k.key,
      !KeyEnabled(k),
      (set p | p in k.allowedProtocols),
      SortRouting(ExactGroups(cands)),
      SortRoutes(Groups(cands)),
      SortStrings(Aliases(false, cands)))
  }

  /** The first route whose pattern matches. */
  ghost function FirstRoute(routes: seq<WildcardRoute>, requested: string): seq<Candidate> {
    if routes == [] then []
    else if Glob.Denotes(routes[0].pattern, requested) then routes[0].candidates
    else FirstRoute(routes[1..], requested)
  }

  ghost function Routed(ctx: Context, requested: string): seq<Candidate> {
    if requested in ctx.routing then ctx.routing[requested] else FirstRoute(ctx.wildcards, requested)
  }

  /** The routes with one more candidate: in the route of its pattern, or in a new last one. */
  function AddToRoutes(routes: seq<WildcardRoute>, pattern: string, cand: Candidate): seq<WildcardRoute> {
    if routes == [] then [WildcardRoute(pattern, [cand])]
    else if routes[0].pattern == pattern then [routes[0].(candidates := routes[0].candidates + [cand])] + routes[1..]
    else [routes[0]] + AddToRoutes(routes[1..], pattern, cand)
  }

  lemma AddToSuffix(routes: seq<WildcardRoute>, i: nat, pattern: string, cand: Candidate)
    requires i < |routes|
    ensures
      var w := routes[i];
      routes[..i] + AddToRoutes(routes[i..], pattern, cand) ==
      if w.pattern == pattern then routes[i := w.(candidates := w.candidates + [cand])]
      else routes[..i + 1] + AddToRoutes(routes[i + 1..], pattern, cand)
  {
    var tail := routes[i..];
    assert tail[0] == routes[i] && tail[1..] == routes[i + 1..];
    if routes[i].pattern != pattern {
      Lists.Regroup(routes[..i], [routes[i]], AddToRoutes(routes[i + 1..], pattern, cand));
      assert routes[..i] + [routes[i]] == routes[..i + 1];
    }
  }

  class KeyContext {
    var name: string
    var key: string
    var disabled: bool
    var allowed: set<string>
    var routing: map<string, seq<Candidate>>
    var wildcards: seq<WildcardRoute>
    var aliasBs: seq<string>

    constructor (k: ClientApiKey)
      ensures View() == Context(k.name, k.key, !KeyEnabled(k), (set p | p in k.allowedProtocols), map[], [], [])
    {
      name, key, disabled := k.name, k.key, !KeyEnabled(k);
      allowed := (set p | p in k.allowedProtocols);
      routing, wildcards, aliasBs := map[], [], [];
    }

    function View(): Context
      reads this
    {
      Context(name, key, disabled, allowed, routing, wildcards, aliasBs)
    }

    /** Appends to the route of this pattern, or opens one after the others. */
    method AddWildcardCandidate(pattern: string, cand: Candidate)
      modifies this`wildcards
      ensures wildcards == AddToRoutes(old(wildcards), pattern, cand)
    {
      var i := 0;
      while i < |wildcards|
        invariant 0 <= i <= |wildcards| && wildcards == old(wildcards)
        invariant AddToRoutes(wildcards, pattern, cand) == wildcards[..i] + AddToRoutes(wildcards[i..], pattern, cand)
      {
        AddToSuffix(wildcards, i, pattern, cand);
        if wildcards[i].pattern == pattern {
          wildcards := wildcards[i := wildcards[i].(candidates := wildcards[i].candidates + [cand])];
          return;
        }
        i := i + 1;
      }
      wildcards := wildcards + [WildcardRoute(pattern, [cand])];
    }
  }

  /** An exact name wins; otherwise the first declared pattern that matches. */
  method ResolveCandidates(ctx: Context, requested: string) returns (cs: seq<Candidate>)
    requires forall w :: w in ctx.wildcards ==> w.pattern != ""
    ensures cs == Routed(ctx, requested)
  {
    if requested in ctx.routing {
      return ctx.routing[requested];
    }
    var i := 0;
    while i < |ctx.wildcards|
      invariant 0 <= i <= |ctx.wildcards|
      invariant FirstRoute(ctx.wildcards, requested) == FirstRoute(ctx.wildcards[i..], requested)
    {
      assert ctx.wildcards[i] in ctx.wildcards;
      var matched := Glob.Match(ctx.wildcards[i].pattern, requested);
      if matched {
        return ctx.wildcards[i].candidates;
      }
      i := i + 1;
    }
    return [];
  }

  /** The index agrees with the scan, for every request and every model list. */
  lemma RoutingAgreesWithScan(k: ClientApiKey, cands: seq<Candidate>, requested: string)
    ensures Routed(ContextOf(k, cands), requested) == Scan(cands, requested)
  {
    AliasesMeaning(false, cands, requested);
    SelectNonempty(requested, cands);
    assert requested in ExactGroups(cands) <==> requested in Aliases(false, cands);
    if requested !in Aliases(false, cands) {
      FirstRouteIsFirstMatching(cands, cands, requested);
      assert SortRoutes(Groups(cands)) == SortedGroups(Aliases(true, cands), cands);
    }
  }

  lemma SelectNonempty(alias: string, cands: seq<Candidate>)
    ensures Select(alias, cands) != [] <==> exists c :: c in cands && c.aliasB == alias
  {
    assert Select(alias, cands) == [] || Select(alias, cands)[0] in Select(alias, cands);
  }

  function SortedGroups(patterns: seq<string>, cands: seq<Candidate>): seq<WildcardRoute> {
    seq(|patterns|, i requires 0 <= i < |patterns| => SortedGroup(patterns[i], cands))
  }

  function SortedGroup(pattern: string, cands: seq<Candidate>): WildcardRoute {
    WildcardRoute(pattern, SortCandidates(Select(pattern, cands)))
  }

  lemma FirstRouteAppend(a: seq<WildcardRoute>, b: seq<WildcardRoute>, requested: string)
    ensures FirstRoute(a + b, requested) ==
            if exists w :: w in a && Glob.Denotes(w.pattern, requested) then FirstRoute(a, requested)
            else FirstRoute(b, requested)
  {
    if a == [] {
      assert a + b == b;
    } else {
      FirstRouteAppend(a[1..], b, requested);
      assert (a + b)[1..] == a[1..] + b;
      assert a == [a[0]] + a[1..];
    }
  }

  ghost function FoundRoute(front: seq<Candidate>, cands: seq<Candidate>, requested: string): seq<Candidate> {
    match FirstMatching(front, requested)
    case Some(pattern) => SortCandidates(Select(pattern, cands))
    case None => []
  }

  /** Walking the routes of the first candidates finds the pattern the scan finds among them. */
  lemma {:induction false} FirstRouteIsFirstMatching(front: seq<Candidate>, cands: seq<Candidate>, requested: string)
    ensures FirstRoute(SortedGroups(Aliases(true, front), cands), requested) == FoundRoute(front, cands, requested)
  {
    if front != [] {
      var before, last := front[..|front| - 1], front[|front| - 1];
      assert front == before + [last];
      FirstRouteIsFirstMatching(before, cands, requested);
      if HasStar(last.aliasB) && last.aliasB !in Aliases(true, before) {
        NewRoute(before, last, cands, requested);
      } else {
        AliasRepeats(before, last, requested);
      }
    }
  }

  lemma NewRoute(before: seq<Candidate>, last: Candidate, cands: seq<Candidate>, requested: string)
    requires HasStar(last.aliasB)
    requires FirstRoute(SortedGroups(Aliases(true, before), cands), requested) == FoundRoute(before, cands, requested)
    ensures FirstRoute(SortedGroups(Aliases(true, before) + [last.aliasB], cands), requested) ==
            FoundRoute(before + [last], cands, requested)
  {
    var patterns := Aliases(true, before);
    SortedGroupsSnoc(patterns, last.aliasB, cands);
    FirstRouteSnoc(SortedGroups(patterns, cands), SortedGroup(last.aliasB, cands), requested);
    MatchingRouteExists(before, cands, requested);
    FoundRouteSnoc(before, last, cands, requested);
  }

  lemma SortedGroupsSnoc(patterns: seq<string>, pattern: string, cands: seq<Candidate>)
    ensures SortedGroups(patterns + [pattern], cands) == SortedGroups(patterns, cands) + [SortedGroup(pattern, cands)]
  {
  }

  lemma FoundRouteSnoc(before: seq<Candidate>, last: Candidate, cands: seq<Candidate>, requested: string)
    requires HasStar(last.aliasB)
    ensures FoundRoute(before + [last], cands, requested) ==
            if FirstMatching(before, requested).Some? then FoundRoute(before, cands, requested)
            else if Glob.Denotes(last.aliasB, requested) then SortedGroup(last.aliasB, cands).candidates
            else []
  {
    assert (before + [last])[..|before|] == before;
  }

  lemma FirstRouteSnoc(routes: seq<WildcardRoute>, more: WildcardRoute, requested: string)
    ensures FirstRoute(routes + [more], requested) ==
            if exists w :: w in routes && Glob.Denotes(w.pattern, requested) then FirstRoute(routes, requested)
            else if Glob.Denotes(more.pattern, requested) then more.candidates
            else []
  {
    FirstRouteAppend(routes, [more], requested);
    assert [more][1..] == [];
    assert FirstRoute([more][1..], requested) == [];
  }

  lemma MatchingRouteExists(before: seq<Candidate>, cands: seq<Candidate>, requested: string)
    ensures (exists w :: w in SortedGroups(Aliases(true, before), cands) && Glob.Denotes(w.pattern, requested)) <==>
            FirstMatching(before, requested).Some?
  {
    var patterns := Aliases(true, before);
    var routes := SortedGroups(patterns, cands);
    if FirstMatching(before, requested).Some? {
      var p := FirstMatching(before, requested).value;
      AliasesMeaning(true, before, p);
      var i :| 0 <= i < |patterns| && patterns[i] == p;
      assert routes[i] in routes && routes[i].pattern == p;
    }
    if w :| w in routes && Glob.Denotes(w.pattern, requested) {
      var i :| 0 <= i < |routes| && routes[i] == w;
      AliasesMeaning(true, before, patterns[i]);
    }
  }

  /** A candidate that opens no route does not change what is found first. */
  lemma AliasRepeats(before: seq<Candidate>, last: Candidate, requested: string)
    requires HasStar(last.aliasB) ==> last.aliasB in Aliases(true, before)
    ensures FirstMatching(before + [last], requested) == FirstMatching(before, requested)
  {
    assert (before + [last])[..|before|] == before;
    AliasesMeaning(true, before, last.aliasB);
  }

  // ---- building one key's context ----

  lemma SelectSnoc(alias: string, front: seq<Candidate>, c: Candidate)
    ensures Select(alias, front + [c]) == if c.aliasB == alias then Select(alias, front) + [c] else Select(alias, front)
  {
    assert (front + [c])[..|front|] == front;
  }

  lemma AliasesSnoc(star: bool, front: seq<Candidate>, c: Candidate)
    ensures Aliases(star, front + [c]) ==
            if HasStar(c.aliasB) == star && c.aliasB !in Aliases(star, front) then Aliases(star, front) + [c.aliasB]
            else Aliases(star, front)
  {
    assert (front + [c])[..|front|] == front;
  }

  lemma ExactGroupsUnchanged(front: seq<Candidate>, c: Candidate)
    requires HasStar(c.aliasB)
    ensures ExactGroups(front + [c]) == ExactGroups(front)
  {
    AliasesSnoc(false, front, c);
    forall a | a in Aliases(false, front) ensures Select(a, front + [c]) == Select(a, front) {
      SelectSnoc(a, front, c);
      AliasesMeaning(false, front, a);
    }
  }

  lemma ExactGroupsSnoc(front: seq<Candidate>, c: Candidate)
    requires !HasStar(c.aliasB)
    ensures ExactGroups(front + [c]) == ExactGroups(front)[c.aliasB := Select(c.aliasB, front) + [c]]
  {
    AliasesSnoc(false, front, c);
    forall a | a in Aliases(false, front + [c])
      ensures Select(a, front + [c]) == if a == c.aliasB then Select(a, front) + [c] else Select(a, front)
    {
      SelectSnoc(a, front, c);
    }
  }

  lemma NothingSelected(star: bool, front: seq<Candidate>, alias: string)
    requires HasStar(alias) == star && alias !in Aliases(star, front)
    ensures Select(alias, front) == []
  {
    AliasesMeaning(star, front, alias);
    SelectNonempty(alias, front);
  }

  lemma {:induction false} AddToRoutesFor(patterns: seq<string>, front: seq<Candidate>, c: Candidate)
    requires forall i, j :: 0 <= i < j < |patterns| ==> patterns[i] != patterns[j]
    ensures AddToRoutes(RoutesFor(patterns, front), c.aliasB, c) ==
            if c.aliasB in patterns then RoutesFor(patterns, front + [c])
            else RoutesFor(patterns, front + [c]) + [WildcardRoute(c.aliasB, [c])]
  {
    if patterns != [] {
      var p, rest := patterns[0], patterns[1..];
      assert patterns == [p] + rest;
      RoutesForCons(p, rest, front);
      RoutesForCons(p, rest, front + [c]);
      SelectSnoc(p, front, c);
      var first := WildcardRoute(p, Select(p, front));
      assert ([first] + RoutesFor(rest, front))[1..] == RoutesFor(rest, front);
      if p == c.aliasB {
        OthersUnchanged(rest, front, c);
      } else {
        AddToRoutesFor(rest, front, c);
      }
    }
  }

  lemma RoutesForCons(p: string, rest: seq<string>, cands: seq<Candidate>)
    ensures RoutesFor([p] + rest, cands) == [WildcardRoute(p, Select(p, cands))] + RoutesFor(rest, cands)
  {
  }

  lemma OthersUnchanged(patterns: seq<string>, front: seq<Candidate>, c: Candidate)
    requires c.aliasB !in patterns
    ensures RoutesFor(patterns, front + [c]) == RoutesFor(patterns, front)
  {
    forall i | 0 <= i < |patterns| ensures Select(patterns[i], front + [c]) == Select(patterns[i], front) {
      SelectSnoc(patterns[i], front, c);
      assert patterns[i] in patterns;
    }
  }

  lemma RoutesForSnoc(patterns: seq<string>, p: string, cands: seq<Candidate>)
    ensures RoutesFor(patterns + [p], cands) == RoutesFor(patterns, cands) + [WildcardRoute(p, Select(p, cands))]
  {
  }

  /** Adding a wildcard candidate to the groups gives the groups with one more candidate. */
  lemma {:induction false} GroupsSnoc(front: seq<Candidate>, c: Candidate)
    requires HasStar(c.aliasB)
    ensures AddToRoutes(Groups(front), c.aliasB, c) == Groups(front + [c])
  {
    var patterns := Aliases(true, front);
    AddToRoutesFor(patterns, front, c);
    AliasesSnoc(true, front, c);
    RoutesForSnoc(patterns, c.aliasB, front + [c]);
    if c.aliasB !in patterns {
      NothingSelected(true, front, c.aliasB);
      SelectSnoc(c.aliasB, front, c);
      assert Select(c.aliasB, front + [c]) == [c];
    }
  }

  lemma GroupsUnchanged(front: seq<Candidate>, c: Candidate)
    requires !HasStar(c.aliasB)
    ensures Groups(front + [c]) == Groups(front)
  {
    AliasesSnoc(true, front, c);
    AliasesMeaning(true, front, c.aliasB);
    OthersUnchanged(Aliases(true, front), front, c);
  }

  /** Every model of the key is known. */
  predicate AllKnown(models: map<string, ResolvedModel>, k: ClientApiKey) {
    forall cm :: cm in k.models ==> cm.model in models
  }

  function CandidateFor(models: map<string, ResolvedModel>, cm: ClientModel, order: nat): Candidate
    requires cm.model in models
  {
    Candidate(cm.model, if cm.aliasB == "" then models[cm.model].aliasA else cm.aliasB, cm.priority, order)
  }

  /** A key's candidates, in config order: what the plain scan scans. */
  function Candidates(models: map<string, ResolvedModel>, k: ClientApiKey): (r: seq<Candidate>)
    requires AllKnown(models, k)
    ensures |r| == |k.models|
  {
    seq(|k.models|, i requires 0 <= i < |k.models| => CandidateFor(models, k.models[i], i))
  }

  /** Appends to the exact name's list, and lists the name if it is new. */
  method AddExact(kc: KeyContext, ghost front: seq<Candidate>, cand: Candidate)
    requires !HasStar(cand.aliasB)
    requires kc.routing == ExactGroups(front) && kc.aliasBs == Aliases(false, front)
    modifies kc`routing, kc`aliasBs
    ensures kc.routing == ExactGroups(front + [cand]) && kc.aliasBs == Aliases(false, front + [cand])
  {
    ExactGroupsSnoc(front, cand);
    AliasesSnoc(false, front, cand);
    var sofar: seq<Candidate> := [];
    if cand.aliasB in kc.routing {
      sofar := kc.routing[cand.aliasB];
    } else {
      NothingSelected(false, front, cand.aliasB);
    }
    kc.routing := kc.routing[cand.aliasB := sofar + [cand]];
    if cand.aliasB !in kc.aliasBs {
      kc.aliasBs := kc.aliasBs + [cand.aliasB];
    }
  }

  /** A pattern goes among the routes, any other name into the exact table. */
  method AddCandidate(kc: KeyContext, ghost front: seq<Candidate>, cand: Candidate)
    requires kc.routing == ExactGroups(front) && kc.wildcards == Groups(front) && kc.aliasBs == Aliases(false, front)
    modifies kc`routing, kc`wildcards, kc`aliasBs
    ensures kc.routing == ExactGroups(front + [cand]) && kc.wildcards == Groups(front + [cand])
    ensures kc.aliasBs == Aliases(false, front + [cand])
  {
    if HasStar(cand.aliasB) {
      AliasesSnoc(false, front, cand);
      ExactGroupsUnchanged(front, cand);
      kc.AddWildcardCandidate(cand.aliasB, cand);
      GroupsSnoc(front, cand);
    } else {
      GroupsUnchanged(front, cand);
      AddExact(kc, front, cand);
    }
  }

  method AddCandidates(models: map<string, ResolvedModel>, k: ClientApiKey, kc: KeyContext) returns (ok: bool)
    requires kc.routing == map[] && kc.wildcards == [] && kc.aliasBs == []
    modifies kc`routing, kc`wildcards, kc`aliasBs
    ensures ok == AllKnown(models, k)
    ensures ok ==>
              && kc.routing == ExactGroups(Candidates(models, k))
              && kc.wildcards == Groups(Candidates(models, k))
              && kc.aliasBs == Aliases(false, Candidates(models, k))
  {
    ghost var front: seq<Candidate> := [];
    assert kc.routing == ExactGroups(front) && kc.wildcards == Groups(front);
    var order := 0;
    while order < |k.models|
      invariant 0 <= order <= |k.models| == |k.models| && |front| == order
      invariant forall i :: 0 <= i < order ==>
                  k.models[i].model in models && front[i] == CandidateFor(models, k.models[i], i)
      invariant kc.routing == ExactGroups(front) && kc.wildcards == Groups(front) && kc.aliasBs == Aliases(false, front)
    {
      var cm := k.models[order];
      if cm.model !in models {
        assert cm in k.models;
        return false;
      }
      var rm := models[cm.model];
      var aliasB := cm.aliasB;
      if aliasB == "" {
        aliasB := rm.aliasA;
      }
      var cand := Candidate(cm.model, aliasB, cm.priority, order);
      AddCandidate(kc, front, cand);
      front := front + [cand];
      order := order + 1;
    }
    assert forall cm :: cm in k.models ==> cm.model in models;
    assert front == Candidates(models, k);
    return true;
  }

  /** Sorting every list in place: the map in any order, then the routes one by one. */
  method SortExact(kc: KeyContext)
    modifies kc`routing
    ensures kc.routing == SortRouting(old(kc.routing))
  {
    var left := kc.routing.Keys;
    while left != {}
      invariant left <= kc.routing.Keys == old(kc.routing).Keys
      invariant forall a :: a in left ==> kc.routing[a] == old(kc.routing)[a]
      invariant forall a :: a in kc.routing.Keys - left ==> kc.routing[a] == SortCandidates(old(kc.routing)[a])
      decreases left
    {
      var a :| a in left;
      kc.routing := kc.routing[a := SortCandidates(kc.routing[a])];
      left := left - {a};
    }
  }

  lemma SortRoutesSnoc(routes: seq<WildcardRoute>, w: WildcardRoute)
    ensures SortRoutes(routes + [w]) == SortRoutes(routes) + [w.(candidates := SortCandidates(w.candidates))]
  {
  }

  method SortWildcards(kc: KeyContext)
    modifies kc`wildcards
    ensures kc.wildcards == SortRoutes(old(kc.wildcards))
  {
    var i := 0;
    while i < |kc.wildcards|
      invariant 0 <= i <= |kc.wildcards| == |old(kc.wildcards)|
      invariant kc.wildcards[..i] == SortRoutes(old(kc.wildcards)[..i])
      invariant kc.wildcards[i..] == old(kc.wildcards)[i..]
    {
      var w := kc.wildcards[i];
      ghost var routes := old(kc.wildcards);
      assert w == kc.wildcards[i..][0] == routes[i];
      SortRoutesSnoc(routes[..i], w);
      assert routes[..i + 1] == routes[..i] + [w];
      var sorted := w.(candidates := SortCandidates(w.candidates));
      ghost var before := kc.wildcards;
      kc.wildcards := kc.wildcards[i := sorted];
      assert kc.wildcards[..i + 1] == before[..i] + [sorted];
      assert kc.wildcards[i + 1..] == before[i..][1..] == routes[i..][1..];
      i := i + 1;
    }
    assert old(kc.wildcards)[..i] == old(kc.wildcards) && kc.wildcards[..i] == kc.wildcards;
  }

  method SortAll(kc: KeyContext)
    modifies kc`routing, kc`wildcards, kc`aliasBs
    ensures kc.routing == SortRouting(old(kc.routing))
    ensures kc.wildcards == SortRoutes(old(kc.wildcards))
    ensures kc.aliasBs == SortStrings(old(kc.aliasBs))
  {
    SortExact(kc);
    SortWildcards(kc);
    kc.aliasBs := SortStrings(kc.aliasBs);
  }

  /** The finished context is handed over by its contents: nothing changes it any more. */
  method BuildKey(models: map<string, ResolvedModel>, k: ClientApiKey) returns (r: Option<Context>)
    ensures r.Some? == AllKnown(models, k)
    ensures r.Some? ==> IsContextOf(models, k, r.value)
  {
    var kc := new KeyContext(k);
    var ok := AddCandidates(models, k, kc);
    if !ok {
      return None;
    }
    SortAll(kc);
    return Some(kc.View());
  }

  // ---- the provider and model tables ----

  function EntryOf(p: Provider): ProviderEntry {
    ProviderEntry(p.name, p.protocol, p.url, p.urls, p.key, p.headers, ConcurrencyLimit(p))
  }

  function ResolvedOf(p: Provider, m: ProviderModel): ResolvedModel {
    ResolvedModel(p.name, p.protocol, m.model, EffectiveAliasA(m), ModelInternalID(p.name, m))
  }

  /** Entering a provider's first models, in order; a repeated id would overwrite. */
  function EnterModels(p: Provider, n: nat, models: map<string, ResolvedModel>): map<string, ResolvedModel>
    requires n <= |p.models|
  {
    if n == 0 then models
    else EnterModels(p, n - 1, models)[ModelInternalID(p.name, p.models[n - 1]) := ResolvedOf(p, p.models[n - 1])]
  }

  function ModelTable(providers: seq<Provider>): map<string, ResolvedModel> {
    if providers == [] then map[]
    else
      var p := providers[|providers| - 1];
      EnterModels(p, |p.models|, ModelTable(providers[..|providers| - 1]))
  }

  function ProviderTable(providers: seq<Provider>): map<string, ProviderEntry> {
    if providers == [] then map[]
    else
      var p := providers[|providers| - 1];
      ProviderTable(providers[..|providers| - 1])[p.name := EntryOf(p)]
  }

  function InternalIDsOf(providers: seq<Provider>): seq<string> {
    if providers == [] then []
    else
      var p := providers[|providers| - 1];
      InternalIDsOf(providers[..|providers| - 1]) + IDsOf(p)
  }

  function IDsOf(p: Provider): seq<string> {
    seq(|p.models|, j requires 0 <= j < |p.models| => ModelInternalID(p.name, p.models[j]))
  }

  function Names(keys: seq<ClientApiKey>): seq<string> {
    seq(|keys|, i requires 0 <= i < |keys| => keys[i].name)
  }

  function Secrets(keys: seq<ClientApiKey>): seq<string> {
    seq(|keys|, i requires 0 <= i < |keys| => keys[i].key)
  }

  /** Entry `k` is the last of the first `n` under this label. */
  ghost predicate LastWith(labels: seq<string>, n: int, value: string, k: int) {
    0 <= k < n <= |labels| && labels[k] == value && forall l :: k < l < n ==> labels[l] != value
  }

  /** A table of what was made for the first entries: under each label, what was made for the last entry with it. */
  ghost predicate Indexed(labels: seq<string>, table: map<string, Context>, made: seq<Context>) {
    && |made| <= |labels|
    && (forall k :: 0 <= k < |made| ==> labels[k] in table)
    && (forall value :: value in table ==>
          exists k :: LastWith(labels, |made|, value, k) && table[value] == made[k])
  }

  lemma IndexedSnoc(labels: seq<string>, table: map<string, Context>, made: seq<Context>, x: Context)
    requires |made| < |labels|
    requires Indexed(labels, table, made)
    ensures Indexed(labels, table[labels[|made|] := x], made + [x])
  {
    var n, all := |made|, made + [x];
    var after := table[labels[n] := x];
    forall value | value in after
      ensures exists k :: LastWith(labels, |all|, value, k) && after[value] == all[k]
    {
      if value == labels[n] {
        assert LastWith(labels, |all|, value, n);
      } else {
        var k :| LastWith(labels, n, value, k) && table[value] == made[k];
        assert LastWith(labels, |all|, value, k);
      }
    }
  }

  predicate KeysKnown(models: map<string, ResolvedModel>, keys: seq<ClientApiKey>) {
    forall k :: k in keys ==> AllKnown(models, k)
  }

  /** The contexts the keys' model lists ask for. */
  function ContextsOf(models: map<string, ResolvedModel>, keys: seq<ClientApiKey>): (r: seq<Context>)
    requires KeysKnown(models, keys)
    ensures |r| == |keys|
  {
    seq(|keys|, i requires 0 <= i < |keys| => ContextOf(keys[i], Candidates(models, keys[i])))
  }

  datatype Indexes = Indexes(
    providers: map<string, ProviderEntry>,
    models: map<string, ResolvedModel>,
    keys: map<string, Context>,
    keyByName: map<string, Context>,
    internalIDs: seq<string>)

  /** The indexes are those of this config. */
  ghost predicate IndexOf(idx: Indexes, cfg: Config) {
    && Buildable(cfg)
    && idx.providers == ProviderTable(cfg.providers)
    && idx.models == ModelTable(cfg.providers)
    && idx.internalIDs == SortStrings(InternalIDsOf(cfg.providers))
    && Indexed(Names(cfg.apiKeys), idx.keyByName, ContextsOf(idx.models, cfg.apiKeys))
    && Indexed(Secrets(cfg.apiKeys), idx.keys, ContextsOf(idx.models, cfg.apiKeys))
  }

  /** Build succeeds exactly when every model a key lists is known. */
  ghost predicate Buildable(cfg: Config) {
    KeysKnown(ModelTable(cfg.providers), cfg.apiKeys)
  }

  /** A provider's models, one by one. */
  method EnterProvider(p: Provider, models: map<string, ResolvedModel>, ids: seq<string>)
    returns (models': map<string, ResolvedModel>, ids': seq<string>)
    ensures models' == EnterModels(p, |p.models|, models)
    ensures ids' == ids + IDsOf(p)
  {
    models', ids' := models, ids;
    var j := 0;
    while j < |p.models|
      invariant 0 <= j <= |p.models|
      invariant models' == EnterModels(p, j, models)
      invariant ids' == ids + IDsOf(p)[..j]
    {
      var id := ModelInternalID(p.name, p.models[j]);
      models' := models'[id := ResolvedOf(p, p.models[j])];
      ids' := ids' + [id];
      assert IDsOf(p)[..j + 1] == IDsOf(p)[..j] + [id];
      j := j + 1;
    }
    assert IDsOf(p)[..j] == IDsOf(p);
  }

  method BuildTables(cfg: Config)
    returns (providers: map<string, ProviderEntry>, models: map<string, ResolvedModel>, ids: seq<string>)
    ensures providers == ProviderTable(cfg.providers)
    ensures models == ModelTable(cfg.providers)
    ensures ids == InternalIDsOf(cfg.providers)
  {
    providers, models, ids := map[], map[], [];
    var i := 0;
    while i < |cfg.providers|
      invariant 0 <= i <= |cfg.providers|
      invariant providers == ProviderTable(cfg.providers[..i])
      invariant models == ModelTable(cfg.providers[..i])
      invariant ids == InternalIDsOf(cfg.providers[..i])
    {
      var p := cfg.providers[i];
      providers := providers[p.name := EntryOf(p)];
      models, ids := EnterProvider(p, models, ids);
      assert cfg.providers[..i + 1][..i] == cfg.providers[..i];
      i := i + 1;
    }
    assert cfg.providers[..i] == cfg.providers;
  }

  ghost predicate IsContextOf(models: map<string, ResolvedModel>, k: ClientApiKey, ctx: Context) {
    AllKnown(models, k) && ctx == ContextOf(k, Candidates(models, k))
  }

  lemma AreContextsOf(models: map<string, ResolvedModel>, keys: seq<ClientApiKey>, views: seq<Context>)
    requires |views| == |keys| && forall k :: 0 <= k < |keys| ==> IsContextOf(models, keys[k], views[k])
    ensures KeysKnown(models, keys)
    ensures views == ContextsOf(models, keys)
  {
    forall k | k in keys ensures AllKnown(models, k) {
      var i :| 0 <= i < |keys| && keys[i] == k;
      assert IsContextOf(models, keys[i], views[i]);
    }
  }

  /** Both tables of the contexts made for the first keys, each context as its key's model list says. */
  ghost predicate Tabled(
      models: map<string, ResolvedModel>, apiKeys: seq<ClientApiKey>, keys: map<string, Context>,
      keyByName: map<string, Context>, made: seq<Context>)
  {
    && |made| <= |apiKeys|
    && (forall k :: 0 <= k < |made| ==> IsContextOf(models, apiKeys[k], made[k]))
    && Indexed(Names(apiKeys), keyByName, made)
    && Indexed(Secrets(apiKeys), keys, made)
  }

  lemma TabledSnoc(
      models: map<string, ResolvedModel>, apiKeys: seq<ClientApiKey>, keys: map<string, Context>,
      keyByName: map<string, Context>, made: seq<Context>, x: Context)
    requires Tabled(models, apiKeys, keys, keyByName, made)
    requires |made| < |apiKeys| && IsContextOf(models, apiKeys[|made|], x)
    ensures Tabled(models, apiKeys, keys[apiKeys[|made|].key := x], keyByName[apiKeys[|made|].name := x], made + [x])
  {
    IndexedSnoc(Secrets(apiKeys), keys, made, x);
    IndexedSnoc(Names(apiKeys), keyByName, made, x);
    forall k | 0 <= k < |made + [x]| ensures IsContextOf(models, apiKeys[k], (made + [x])[k]) {
      assert k < |made| ==> (made + [x])[k] == made[k];
    }
  }

  method BuildKeys(models: map<string, ResolvedModel>, apiKeys: seq<ClientApiKey>)
    returns (ok: bool, keys: map<string, Context>, keyByName: map<string, Context>)
    ensures ok == KeysKnown(models, apiKeys)
    ensures ok ==> Tabled(models, apiKeys, keys, keyByName, ContextsOf(models, apiKeys))
  {
    keys, keyByName := map[], map[];
    ghost var made: seq<Context> := [];
    var i := 0;
    while i < |apiKeys|
      invariant 0 <= i <= |apiKeys| && |made| == i
      invariant Tabled(models, apiKeys, keys, keyByName, made)
    {
      assert apiKeys[i] in apiKeys;
      var built := BuildKey(models, apiKeys[i]);
      if built.None? {
        ok := false;
        return;
      }
      TabledSnoc(models, apiKeys, keys, keyByName, made, built.value);
      keys := keys[apiKeys[i].key := built.value];
      keyByName := keyByName[apiKeys[i].name := built.value];
      made := made + [built.value];
      i := i + 1;
    }
    ok := true;
    AreContextsOf(models, apiKeys, made);
  }

  method Build(cfg: Config) returns (r: Result<Indexes, string>)
    ensures r.Ok? <==> Buildable(cfg)
    ensures r.Ok? ==> IndexOf(r.value, cfg)
  {
    var providers, models, ids := BuildTables(cfg);
    var ok, keys, keyByName := BuildKeys(models, cfg.apiKeys);
    if !ok {
      return Err("indexes: an api key references an unknown model");
    }
    return Ok(Indexes(providers, models, keys, keyByName, SortStrings(ids)));
  }

  // ---- what validation buys ----

  function ResolvedAt(cfg: Config, i: int, j: int): ResolvedModel
    requires Validate.IsModel(cfg, i, j)
  {
    ResolvedOf(cfg.providers[i], cfg.providers[i].models[j])
  }

  /** Model (i', j') is declared before (i, j). */
  predicate Declared(cfg: Config, i: int, j: int, i': int, j': int) {
    Validate.IsModel(cfg, i', j') && (i' < i || (i' == i && j' < j))
  }

  /** The table holds the models declared before (i, j) and nothing else. */
  ghost predicate HoldsModels(cfg: Config, i: int, j: int, models: map<string, ResolvedModel>) {
    && (forall i', j' :: Declared(cfg, i, j, i', j') ==> Validate.IDAt(cfg, i', j') in models)
    && (forall id :: id in models ==> Stands(cfg, i, j, id, models[id]))
  }

  /** A model declared before (i, j) has this id and this entry. */
  ghost predicate Stands(cfg: Config, i: int, j: int, id: string, entry: ResolvedModel) {
    exists i', j' ::
      Declared(cfg, i, j, i', j') && Validate.IDAt(cfg, i', j') == id && entry == ResolvedAt(cfg, i', j')
  }

  lemma {:induction false} EnteredModels(cfg: Config, i: nat, j: nat, models: map<string, ResolvedModel>)
    requires i < |cfg.providers| && j <= |cfg.providers[i].models|
    requires HoldsModels(cfg, i, 0, models)
    ensures HoldsModels(cfg, i, j, EnterModels(cfg.providers[i], j, models))
  {
    if j > 0 {
      EnteredModels(cfg, i, j - 1, models);
      EnterLast(cfg, i, j, models);
      EnteredOne(cfg, i, j, EnterModels(cfg.providers[i], j - 1, models), EnterModels(cfg.providers[i], j, models));
    }
  }

  lemma EnterLast(cfg: Config, i: nat, j: nat, models: map<string, ResolvedModel>)
    requires i < |cfg.providers| && 0 < j <= |cfg.providers[i].models|
    ensures
      var before := EnterModels(cfg.providers[i], j - 1, models);
      EnterModels(cfg.providers[i], j, models) ==
      before[Validate.IDAt(cfg, i, j - 1) := ResolvedAt(cfg, i, j - 1)]
  {
  }

  lemma EnteredOne(
      cfg: Config, i: nat, j: nat, before: map<string, ResolvedModel>, after: map<string, ResolvedModel>)
    requires j > 0 && Validate.IsModel(cfg, i, j - 1) && HoldsModels(cfg, i, j - 1, before)
    requires after == before[Validate.IDAt(cfg, i, j - 1) := ResolvedAt(cfg, i, j - 1)]
    ensures HoldsModels(cfg, i, j, after)
  {
    var mine := Validate.IDAt(cfg, i, j - 1);
    forall id | id in after ensures Stands(cfg, i, j, id, after[id]) {
      if id == mine {
        assert Declared(cfg, i, j, i, j - 1);
      } else {
        var i', j' :| Declared(cfg, i, j - 1, i', j') && Validate.IDAt(cfg, i', j') == id &&
          before[id] == ResolvedAt(cfg, i', j');
        assert Declared(cfg, i, j, i', j');
      }
    }
    forall i', j' | Declared(cfg, i, j, i', j') ensures Validate.IDAt(cfg, i', j') in after {
      assert Declared(cfg, i, j - 1, i', j') || (i' == i && j' == j - 1);
    }
  }

  lemma {:induction false} TableHoldsModels(cfg: Config, n: nat)
    requires n <= |cfg.providers|
    ensures HoldsModels(cfg, n, 0, ModelTable(cfg.providers[..n]))
  {
    if n > 0 {
      TableHoldsModels(cfg, n - 1);
      assert cfg.providers[..n][..n - 1] == cfg.providers[..n - 1];
      var before := ModelTable(cfg.providers[..n - 1]);
      var count := |cfg.providers[n - 1].models|;
      EnteredModels(cfg, n - 1, count, before);
      var after := EnterModels(cfg.providers[n - 1], count, before);
      assert after == ModelTable(cfg.providers[..n]);
      assert forall i', j' :: Declared(cfg, n - 1, count, i', j') <==> Declared(cfg, n, 0, i', j');
    }
  }

  lemma {:induction false} TableHoldsProviders(ps: seq<Provider>)
    ensures forall p :: p in ps ==> p.name in ProviderTable(ps)
    ensures forall name :: name in ProviderTable(ps) ==>
                             exists p :: p in ps && p.name == name && ProviderTable(ps)[name] == EntryOf(p)
  {
    if ps != [] {
      var front, last := ps[..|ps| - 1], ps[|ps| - 1];
      assert ps == front + [last];
      TableHoldsProviders(front);
    }
  }

  /** Every declared model is in the table under its own id and none was overwritten; likewise every provider. */
  lemma NothingOverwritten(decode: string -> Option<Json>, cfg: Config, i: int, j: int)
    requires Validate.Valid(decode, cfg) && Validate.IsModel(cfg, i, j)
    ensures Validate.IDAt(cfg, i, j) in ModelTable(cfg.providers)
    ensures ModelTable(cfg.providers)[Validate.IDAt(cfg, i, j)] == ResolvedAt(cfg, i, j)
  {
    TableHoldsModels(cfg, |cfg.providers|);
    assert cfg.providers[..|cfg.providers|] == cfg.providers;
    assert Declared(cfg, |cfg.providers|, 0, i, j);
    Validate.ValidIDs(decode, cfg, i, j);
  }

  lemma ProviderNotOverwritten(decode: string -> Option<Json>, cfg: Config, i: int)
    requires Validate.Valid(decode, cfg) && 0 <= i < |cfg.providers|
    ensures cfg.providers[i].name in ProviderTable(cfg.providers)
    ensures ProviderTable(cfg.providers)[cfg.providers[i].name] == EntryOf(cfg.providers[i])
  {
    TableHoldsProviders(cfg.providers);
    var name := cfg.providers[i].name;
    var p :| p in cfg.providers && p.name == name && ProviderTable(cfg.providers)[name] == EntryOf(p);
    var k :| 0 <= k < |cfg.providers| && cfg.providers[k] == p;
    if k != i {
      Validate.NamesDiffer(decode, cfg, i, k);
    }
  }

  /** A config without problems can be indexed: Build cannot fail on it. */
  lemma ValidIsBuildable(decode: string -> Option<Json>, cfg: Config)
    requires Validate.Valid(decode, cfg)
    ensures Buildable(cfg)
  {
    forall k, cm | k in cfg.apiKeys && cm in k.models ensures cm.model in ModelTable(cfg.providers) {
      var a :| 0 <= a < |cfg.apiKeys| && cfg.apiKeys[a] == k;
      var b :| 0 <= b < |k.models| && k.models[b] == cm;
      assert !Validate.Problem(decode, cfg, Validate.ClientModelRequired(a, b));
      assert !Validate.Problem(decode, cfg, Validate.ModelNotFound(a, b));
      var i, j :| Validate.HasID(cfg, i, j) && Validate.IDAt(cfg, i, j) == cm.model;
      NothingOverwritten(decode, cfg, i, j);
    }
  }

  /** Every candidate of every key resolves to a declared model, whose provider is in the table and is what parsing
      the candidate's id yields. */
  lemma CandidatesResolve(decode: string -> Option<Json>, cfg: Config, k: ClientApiKey, c: Candidate)
    requires Validate.Valid(decode, cfg) && k in cfg.apiKeys
    requires Buildable(cfg) && c in Candidates(ModelTable(cfg.providers), k)
    ensures c.internalID in ModelTable(cfg.providers)
    ensures
      var rm := ModelTable(cfg.providers)[c.internalID];
      && rm.internalID == c.internalID
      && ParseInternalModelID(c.internalID) == Some((rm.providerName, rm.aliasA))
      && rm.providerName in ProviderTable(cfg.providers)
      && exists p :: p in cfg.providers && ProviderTable(cfg.providers)[rm.providerName] == EntryOf(p) &&
                     rm.providerName == p.name && rm.protocol == p.protocol
  {
    var cm :| cm in k.models && cm.model == c.internalID;
    TableHoldsModels(cfg, |cfg.providers|);
    assert cfg.providers[..|cfg.providers|] == cfg.providers;
    var i, j :| Declared(cfg, |cfg.providers|, 0, i, j) && Validate.IDAt(cfg, i, j) == c.internalID &&
      ModelTable(cfg.providers)[c.internalID] == ResolvedAt(cfg, i, j);
    Validate.ValidIDs(decode, cfg, i, j);
    ProviderNotOverwritten(decode, cfg, i);
  }

  /** The routes of a key hold wildcards only, so no pattern is empty. */
  lemma RoutesHaveStars(k: ClientApiKey, cands: seq<Candidate>, w: WildcardRoute)
    requires w in ContextOf(k, cands).wildcards
    ensures HasStar(w.pattern) && w.pattern != ""
  {
    AliasesMeaning(true, cands, w.pattern);
  }

  /** A request authenticated by a secret of an indexed config is routed as a scan of that key's model list says;
      and ResolveCandidates may be asked. */
  lemma IndexedKeyRoutesAsScan(idx: Indexes, cfg: Config, secret: string, requested: string)
    requires IndexOf(idx, cfg) && secret in idx.keys
    ensures forall w :: w in idx.keys[secret].wildcards ==> w.pattern != ""
    ensures
      exists k :: LastWith(Secrets(cfg.apiKeys), |cfg.apiKeys|, secret, k) &&
                  Routed(idx.keys[secret], requested) == Scan(Candidates(idx.models, cfg.apiKeys[k]), requested)
  {
    var views := ContextsOf(idx.models, cfg.apiKeys);
    var k :| LastWith(Secrets(cfg.apiKeys), |views|, secret, k) && idx.keys[secret] == views[k];
    var cands := Candidates(idx.models, cfg.apiKeys[k]);
    assert idx.keys[secret] == ContextOf(cfg.apiKeys[k], cands);
    RoutingAgreesWithScan(cfg.apiKeys[k], cands, requested);
    forall w | w in idx.keys[secret].wildcards ensures w.pattern != "" {
      RoutesHaveStars(cfg.apiKeys[k], cands, w);
    }
  }
}
