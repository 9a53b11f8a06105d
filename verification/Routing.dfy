/** From the config to the candidates of a request, past all tables: what internal/indexes/indexes.go promises of a
    config that internal/config/validate.go accepts. */
module Routing {
  import opened Wrappers
  import opened Config
  import JsonTree
  import Validate
  import Glob
  import Indexes
  import Lists
  import Sorting

  /** Provider `p` offers model `m` under this alias and internal id. */
  predicate Offers(p: Provider, m: ProviderModel, alias: string, id: string) {
    m in p.models && alias == (if m.aliasA != "" then m.aliasA else m.model) && id == p.name + "/" + alias
  }

  /** The key lists its `n`-th model under this alias: its own, else the provider's. */
  ghost predicate ListedAs(cfg: Config, k: ClientApiKey, n: int, alias: string) {
    && 0 <= n < |k.models|
    && var cm := k.models[n];
       if cm.aliasB != "" then alias == cm.aliasB
       else exists p, m :: p in cfg.providers && Offers(p, m, alias, cm.model)
  }

  /** The key lists its `n`-th model under a pattern that matches the request. */
  ghost predicate MatchesAt(cfg: Config, k: ClientApiKey, n: int, requested: string) {
    exists pattern :: ListedAs(cfg, k, n, pattern) && '*' in pattern && Glob.Denotes(pattern, requested)
  }

  /** The alias that serves the request: the requested name itself, if it is no pattern and the key lists it; else the
      first listed pattern that matches. */
  ghost predicate Serves(cfg: Config, k: ClientApiKey, requested: string, alias: string) {
    if '*' !in requested && exists n :: ListedAs(cfg, k, n, requested) then alias == requested
    else exists n :: && ListedAs(cfg, k, n, alias) && '*' in alias && Glob.Denotes(alias, requested)
                     && forall l :: 0 <= l < n ==> !MatchesAt(cfg, k, l, requested)
  }

  /** The candidate stands for the `n`-th model of the key. */
  predicate StandsFor(k: ClientApiKey, c: Indexes.Candidate, n: int) {
    0 <= n < |k.models| && c.order == n && c.internalID == k.models[n].model && c.priority == k.models[n].priority
  }

  /** The model and the provider found under an id are those the config declares. */
  predicate Found(idx: Indexes.Indexes, p: Provider, m: ProviderModel, alias: string, id: string) {
    && id in idx.models && p.name in idx.providers
    && var rm, pe := idx.models[id], idx.providers[p.name];
       && rm.providerName == p.name && rm.protocol == p.protocol && rm.upstreamModel == m.model
       && rm.aliasA == alias && rm.internalID == id
       && pe.name == p.name && pe.protocol == p.protocol && pe.url == p.url && pe.urls == p.urls
       && pe.key == p.key && pe.headers == p.headers
       && pe.maxConcurrency == if p.maxConcurrency.Some? && p.maxConcurrency.value > 0 then p.maxConcurrency.value else 0
  }

  ghost predicate IsFound(cfg: Config, idx: Indexes.Indexes, id: string) {
    exists p, m, alias :: p in cfg.providers && Offers(p, m, alias, id) && Found(idx, p, m, alias, id)
  }

  /** Higher priority first, then the key's own order. */
  predicate InOrder(cs: seq<Indexes.Candidate>) {
    forall i, j :: 0 <= i < j < |cs| ==>
      cs[i].priority > cs[j].priority || (cs[i].priority == cs[j].priority && cs[i].order < cs[j].order)
  }

  /** The `n`-th model of the key is among the candidates. */
  predicate Holds(cs: seq<Indexes.Candidate>, k: ClientApiKey, n: int) {
    exists c :: c in cs && StandsFor(k, c, n)
  }

  /** The `n`-th model of the key is listed under the alias that serves. */
  ghost predicate Called(cfg: Config, k: ClientApiKey, requested: string, n: int) {
    exists alias :: ListedAs(cfg, k, n, alias) && Serves(cfg, k, requested, alias)
  }

  /** What a list of candidates is to be: exactly the models listed under the alias that serves, each once, by priority
      and then in the key's own order, and found in the tables as declared. */
  ghost predicate Answers(
      cfg: Config, idx: Indexes.Indexes, k: ClientApiKey, requested: string, cs: seq<Indexes.Candidate>)
  {
    && (forall n :: Holds(cs, k, n) <==> Called(cfg, k, requested, n))
    && (forall c :: c in cs ==> StandsFor(k, c, c.order))
    && InOrder(cs)
    && (forall c :: c in cs ==> IsFound(cfg, idx, c.internalID))
  }

  // ---- the scan, by positions ----

  /** The first pattern in candidate order that matches. */
  ghost predicate MatchesFirst(cands: seq<Indexes.Candidate>, n: int, requested: string) {
    && 0 <= n < |cands| && Hits(cands[n], requested)
    && forall l :: 0 <= l < n ==> !Hits(cands[l], requested)
  }

  ghost predicate Hits(c: Indexes.Candidate, requested: string) {
    '*' in c.aliasB && Glob.Denotes(c.aliasB, requested)
  }

  /** What the scan finds among the first candidates is the first hit there. */
  ghost predicate FindsFirst(cands: seq<Indexes.Candidate>, requested: string, found: Option<string>) {
    match found
    case None => forall n :: 0 <= n < |cands| ==> !Hits(cands[n], requested)
    case Some(pattern) => exists n :: MatchesFirst(cands, n, requested) && cands[n].aliasB == pattern
  }

  lemma FindsFirstSnoc(
      front: seq<Indexes.Candidate>, last: Indexes.Candidate, requested: string, found: Option<string>)
    requires FindsFirst(front, requested, found)
    ensures FindsFirst(front + [last], requested,
                       if found.Some? then found else if Hits(last, requested) then Some(last.aliasB) else None)
  {
    var all := front + [last];
    if found.Some? {
      var n :| MatchesFirst(front, n, requested) && front[n].aliasB == found.value;
      assert MatchesFirst(all, n, requested);
    } else if Hits(last, requested) {
      assert MatchesFirst(all, |front|, requested);
    }
  }

  lemma {:induction false} FirstMatchingIsFirst(cands: seq<Indexes.Candidate>, requested: string)
    ensures FindsFirst(cands, requested, Indexes.FirstMatching(cands, requested))
  {
    if cands != [] {
      var front, last := cands[..|cands| - 1], cands[|cands| - 1];
      assert cands == front + [last];
      FirstMatchingIsFirst(front, requested);
      FindsFirstSnoc(front, last, requested, Indexes.FirstMatching(front, requested));
    }
  }

  /** The alias that serves among candidates. */
  ghost predicate ServesIn(cands: seq<Indexes.Candidate>, requested: string, alias: string) {
    if '*' !in requested && exists c :: c in cands && c.aliasB == requested then alias == requested
    else exists n :: MatchesFirst(cands, n, requested) && cands[n].aliasB == alias
  }

  lemma SelectIn(alias: string, cands: seq<Indexes.Candidate>, c: Indexes.Candidate)
    ensures c in Indexes.SortCandidates(Indexes.Select(alias, cands)) <==> c in cands && c.aliasB == alias
  {
    var picked := Indexes.Select(alias, cands);
    assert c in Indexes.SortCandidates(picked) <==> c in multiset(Indexes.SortCandidates(picked));
    assert c in picked <==> c in multiset(picked);
  }

  lemma FirstServes(cands: seq<Indexes.Candidate>, requested: string, alias: string)
    requires '*' in requested || !exists c :: c in cands && c.aliasB == requested
    ensures ServesIn(cands, requested, alias) <==> Indexes.FirstMatching(cands, requested) == Some(alias)
  {
    FirstMatchingIsFirst(cands, requested);
    forall n, l | MatchesFirst(cands, n, requested) && MatchesFirst(cands, l, requested) ensures n == l {
    }
  }

  lemma ScanHolds(cands: seq<Indexes.Candidate>, requested: string, c: Indexes.Candidate)
    ensures c in Indexes.Scan(cands, requested) <==> c in cands && ServesIn(cands, requested, c.aliasB)
  {
    Indexes.SelectNonempty(requested, cands);
    if '*' !in requested && exists d :: d in cands && d.aliasB == requested {
      SelectIn(requested, cands, c);
    } else {
      FirstServes(cands, requested, c.aliasB);
      var first := Indexes.FirstMatching(cands, requested);
      if first.Some? {
        SelectIn(first.value, cands, c);
      }
    }
  }

  // ---- from the model list to the candidates ----

  /** Candidate `n` carries what the key lists at `n`. */
  lemma CandidateIs(
      decode: string -> Option<JsonTree.Json>, cfg: Config, k: ClientApiKey, cands: seq<Indexes.Candidate>, n: int)
    requires Validate.Valid(decode, cfg) && Indexes.Buildable(cfg) && k in cfg.apiKeys
    requires cands == Indexes.Candidates(Indexes.ModelTable(cfg.providers), k) && 0 <= n < |cands|
    ensures StandsFor(k, cands[n], n)
    ensures forall alias :: ListedAs(cfg, k, n, alias) <==> alias == cands[n].aliasB
  {
    var cm := k.models[n];
    assert cm in k.models;
    var i, j := DeclaredAt(cfg, cm.model);
    var p, m := cfg.providers[i], cfg.providers[i].models[j];
    assert Offers(p, m, EffectiveAliasA(m), cm.model);
    forall p', m', alias | p' in cfg.providers && Offers(p', m', alias, cm.model) ensures alias == EffectiveAliasA(m) {
      OfferedOnce(decode, cfg, i, j, p', m', alias);
    }
  }

  lemma DeclaredAt(cfg: Config, id: string) returns (i: int, j: int)
    requires id in Indexes.ModelTable(cfg.providers)
    ensures Validate.IsModel(cfg, i, j) && Validate.IDAt(cfg, i, j) == id
    ensures Indexes.ModelTable(cfg.providers)[id] == Indexes.ResolvedAt(cfg, i, j)
  {
    Indexes.TableHoldsModels(cfg, |cfg.providers|);
    assert cfg.providers[..|cfg.providers|] == cfg.providers;
    var table := Indexes.ModelTable(cfg.providers);
    assert Indexes.Stands(cfg, |cfg.providers|, 0, id, table[id]);
    i, j :| Indexes.Declared(cfg, |cfg.providers|, 0, i, j) && Validate.IDAt(cfg, i, j) == id &&
            table[id] == Indexes.ResolvedAt(cfg, i, j);
  }

  /** An id is offered once. */
  lemma OfferedOnce(
      decode: string -> Option<JsonTree.Json>, cfg: Config, i: int, j: int, p: Provider, m: ProviderModel, alias: string)
    requires Validate.Valid(decode, cfg) && Validate.IsModel(cfg, i, j)
    requires p in cfg.providers && Offers(p, m, alias, Validate.IDAt(cfg, i, j))
    ensures p == cfg.providers[i] && m == cfg.providers[i].models[j]
  {
    var i' :| 0 <= i' < |cfg.providers| && cfg.providers[i'] == p;
    var j' :| 0 <= j' < |p.models| && p.models[j'] == m;
    Validate.ValidIDs(decode, cfg, i, j);
    assert Validate.IsModel(cfg, i', j') && Validate.IDAt(cfg, i', j') == Validate.IDAt(cfg, i, j);
  }

  lemma CandidateIsFound(
      decode: string -> Option<JsonTree.Json>, cfg: Config, idx: Indexes.Indexes, id: string)
    requires Validate.Valid(decode, cfg) && Indexes.IndexOf(idx, cfg) && id in idx.models
    ensures IsFound(cfg, idx, id)
  {
    var i, j := DeclaredAt(cfg, id);
    var p, m := cfg.providers[i], cfg.providers[i].models[j];
    Indexes.ProviderNotOverwritten(decode, cfg, i);
    assert Offers(p, m, EffectiveAliasA(m), id) && Found(idx, p, m, EffectiveAliasA(m), id);
  }

  lemma ServesAlike(
      decode: string -> Option<JsonTree.Json>, cfg: Config, k: ClientApiKey, cands: seq<Indexes.Candidate>,
      requested: string, alias: string)
    requires Validate.Valid(decode, cfg) && Indexes.Buildable(cfg) && k in cfg.apiKeys
    requires cands == Indexes.Candidates(Indexes.ModelTable(cfg.providers), k)
    ensures Serves(cfg, k, requested, alias) <==> ServesIn(cands, requested, alias)
  {
    forall n | 0 <= n < |cands|
      ensures forall a :: ListedAs(cfg, k, n, a) <==> a == cands[n].aliasB
      ensures MatchesAt(cfg, k, n, requested) <==> Hits(cands[n], requested)
    {
      CandidateIs(decode, cfg, k, cands, n);
      assert ListedAs(cfg, k, n, cands[n].aliasB);
    }
    ListedIsCandidate(decode, cfg, k, cands, requested);
    if '*' in requested || !exists n :: ListedAs(cfg, k, n, requested) {
      if n :| MatchesFirst(cands, n, requested) && cands[n].aliasB == alias {
        assert ListedAs(cfg, k, n, alias);
      }
      if n :| ListedAs(cfg, k, n, alias) && '*' in alias && Glob.Denotes(alias, requested)
              && forall l :: 0 <= l < n ==> !MatchesAt(cfg, k, l, requested) {
        assert MatchesFirst(cands, n, requested);
      }
    }
  }

  lemma {:induction false} SelectWithin(alias: string, cands: seq<Indexes.Candidate>)
    ensures multiset(Indexes.Select(alias, cands)) <= multiset(cands)
  {
    if cands != [] {
      var n := |cands| - 1;
      SelectWithin(alias, cands[..n]);
      assert cands == cands[..n] + [cands[n]];
    }
  }

  /** Candidates listed once are sorted strictly. */
  lemma SortedStrictly(cands: seq<Indexes.Candidate>, alias: string)
    requires forall n :: 0 <= n < |cands| ==> cands[n].order == n
    ensures InOrder(Indexes.SortCandidates(Indexes.Select(alias, cands)))
  {
    var picked := Indexes.Select(alias, cands);
    var cs := Indexes.SortCandidates(picked);
    SelectWithin(alias, cands);
    forall i, j | 0 <= i < j < |cs|
      ensures cs[i].priority > cs[j].priority || (cs[i].priority == cs[j].priority && cs[i].order < cs[j].order)
    {
      assert !Indexes.Before(cs[j], cs[i]);
      if cs[i].order == cs[j].order {
        SelectIn(alias, cands, cs[i]);
        SelectIn(alias, cands, cs[j]);
        assert cs[i] == cands[cs[i].order] && cs[j] == cands[cs[j].order];
        Lists.Twice(cs, i, j);
        Lists.Once(cands, cs[i]);
        assert false;
      }
    }
  }

  lemma ScanInOrder(cands: seq<Indexes.Candidate>, requested: string)
    requires forall n :: 0 <= n < |cands| ==> cands[n].order == n
    ensures InOrder(Indexes.Scan(cands, requested))
  {
    SortedStrictly(cands, requested);
    var first := Indexes.FirstMatching(cands, requested);
    if first.Some? {
      SortedStrictly(cands, first.value);
    }
  }

  lemma ScanCalls(
      cfg: Config, k: ClientApiKey, cands: seq<Indexes.Candidate>, cs: seq<Indexes.Candidate>, requested: string, n: int)
    requires |cands| == |k.models|
    requires forall i :: 0 <= i < |cands| ==> StandsFor(k, cands[i], i)
    requires 0 <= n < |cands| ==> forall a :: ListedAs(cfg, k, n, a) <==> a == cands[n].aliasB
    requires forall c :: c in cs <==> c in cands && Serves(cfg, k, requested, c.aliasB)
    ensures Holds(cs, k, n) <==> Called(cfg, k, requested, n)
  {
    if 0 <= n < |cands| {
      if Called(cfg, k, requested, n) {
        assert cands[n] in cs && StandsFor(k, cands[n], n);
      }
      if Holds(cs, k, n) {
        var c :| c in cs && StandsFor(k, c, n);
        var i :| 0 <= i < |cands| && cands[i] == c;
        assert c == cands[n] && ListedAs(cfg, k, n, c.aliasB);
      }
    }
  }

  lemma ScanAnswers(
      decode: string -> Option<JsonTree.Json>, cfg: Config, idx: Indexes.Indexes, k: ClientApiKey, requested: string)
    requires Validate.Valid(decode, cfg) && Indexes.IndexOf(idx, cfg) && k in cfg.apiKeys
    ensures Answers(cfg, idx, k, requested, Indexes.Scan(Indexes.Candidates(idx.models, k), requested))
  {
    var cands := Indexes.Candidates(idx.models, k);
    var cs := Indexes.Scan(cands, requested);
    forall n | 0 <= n < |cands|
      ensures StandsFor(k, cands[n], n)
      ensures forall a :: ListedAs(cfg, k, n, a) <==> a == cands[n].aliasB
    {
      CandidateIs(decode, cfg, k, cands, n);
    }
    forall c ensures c in cs <==> c in cands && Serves(cfg, k, requested, c.aliasB) {
      ScanHolds(cands, requested, c);
      ServesAlike(decode, cfg, k, cands, requested, c.aliasB);
    }
    forall c | c in cs ensures StandsFor(k, c, c.order) && IsFound(cfg, idx, c.internalID) {
      var n :| 0 <= n < |cands| && cands[n] == c;
      CandidateIsFound(decode, cfg, idx, c.internalID);
    }
    forall n ensures Holds(cs, k, n) <==> Called(cfg, k, requested, n) {
      ScanCalls(cfg, k, cands, cs, requested, n);
    }
    ScanInOrder(cands, requested);
  }

  /** The key an accepted config holds under a secret, and what the tables say of it. */
  ghost predicate KeyIs(idx: Indexes.Indexes, k: ClientApiKey, secret: string) {
    && k.key == secret && secret in idx.keys
    && var ctx := idx.keys[secret];
       && ctx.name == k.name && ctx.key == secret
       && (ctx.disabled <==> k.enabled == Some(false))
       && (forall p :: p in ctx.allowed <==> p in k.allowedProtocols)
  }

  /** Every request made under a secret of an accepted config gets the candidates its key's model list calls for, found
      in the tables as the config declares them. */
  lemma ConfigRoutes(
      decode: string -> Option<JsonTree.Json>, cfg: Config, idx: Indexes.Indexes, secret: string, requested: string)
    requires Validate.Valid(decode, cfg) && Indexes.IndexOf(idx, cfg)
    requires secret in idx.keys
    ensures exists k :: k in cfg.apiKeys && KeyIs(idx, k, secret) &&
                        Answers(cfg, idx, k, requested, Indexes.Routed(idx.keys[secret], requested))
  {
    var views := Indexes.ContextsOf(idx.models, cfg.apiKeys);
    var n :| Indexes.LastWith(Indexes.Secrets(cfg.apiKeys), |views|, secret, n) && idx.keys[secret] == views[n];
    var k := cfg.apiKeys[n];
    assert k in cfg.apiKeys && KeyIs(idx, k, secret);
    Indexes.RoutingAgreesWithScan(k, Indexes.Candidates(idx.models, k), requested);
    ScanAnswers(decode, cfg, idx, k, requested);
  }

  /** The secrets that are known are those of the config. */
  lemma SecretsAreKnown(cfg: Config, idx: Indexes.Indexes, secret: string)
    requires Indexes.IndexOf(idx, cfg)
    ensures secret in idx.keys <==> exists k :: k in cfg.apiKeys && k.key == secret
  {
    var views := Indexes.ContextsOf(idx.models, cfg.apiKeys);
    if k :| k in cfg.apiKeys && k.key == secret {
      var n :| 0 <= n < |cfg.apiKeys| && cfg.apiKeys[n] == k;
      assert Indexes.Secrets(cfg.apiKeys)[n] in idx.keys;
    }
    if secret in idx.keys {
      var n :| Indexes.LastWith(Indexes.Secrets(cfg.apiKeys), |views|, secret, n) && idx.keys[secret] == views[n];
      assert cfg.apiKeys[n] in cfg.apiKeys;
    }
  }

  /** The names a key may ask for, as its model list is shown: each plain alias once, in order. */
  lemma NamesListed(
      decode: string -> Option<JsonTree.Json>, cfg: Config, k: ClientApiKey, idx: Indexes.Indexes)
    requires Validate.Valid(decode, cfg) && Indexes.IndexOf(idx, cfg) && k in cfg.apiKeys
    ensures
      var names := Indexes.ContextOf(k, Indexes.Candidates(idx.models, k)).aliasBs;
      && Sorting.Sorted(names)
      && (forall i, j :: 0 <= i < j < |names| ==> names[i] != names[j])
      && forall name :: name in names <==> '*' !in name && exists n :: ListedAs(cfg, k, n, name)
  {
    var cands := Indexes.Candidates(idx.models, k);
    var plain := Indexes.Aliases(false, cands);
    var names := Indexes.ContextOf(k, cands).aliasBs;
    forall name ensures name in names <==> '*' !in name && exists n :: ListedAs(cfg, k, n, name) {
      assert name in names <==> name in multiset(names);
      assert name in plain <==> name in multiset(plain);
      Indexes.AliasesMeaning(false, cands, name);
      ListedIsCandidate(decode, cfg, k, cands, name);
    }
    forall i, j | 0 <= i < j < |names| ensures names[i] != names[j] {
      if names[i] == names[j] {
        Lists.Twice(names, i, j);
        Lists.Once(plain, names[i]);
      }
    }
  }

  lemma ListedIsCandidate(
      decode: string -> Option<JsonTree.Json>, cfg: Config, k: ClientApiKey, cands: seq<Indexes.Candidate>, alias: string)
    requires Validate.Valid(decode, cfg) && Indexes.Buildable(cfg) && k in cfg.apiKeys
    requires cands == Indexes.Candidates(Indexes.ModelTable(cfg.providers), k)
    ensures (exists n :: ListedAs(cfg, k, n, alias)) <==> exists c :: c in cands && c.aliasB == alias
  {
    if n :| ListedAs(cfg, k, n, alias) {
      CandidateIs(decode, cfg, k, cands, n);
      assert cands[n] in cands;
    }
    if c :| c in cands && c.aliasB == alias {
      var n :| 0 <= n < |cands| && cands[n] == c;
      CandidateIs(decode, cfg, k, cands, n);
      assert ListedAs(cfg, k, n, alias);
    }
  }

  lemma {:induction false} IDsOffered(providers: seq<Provider>, id: string)
    ensures id in Indexes.InternalIDsOf(providers) <==>
            exists p, m, alias :: p in providers && Offers(p, m, alias, id)
  {
    if providers != [] {
      var n := |providers| - 1;
      var p := providers[n];
      IDsOffered(providers[..n], id);
      assert providers == providers[..n] + [p];
      if id in Indexes.IDsOf(p) {
        var j :| 0 <= j < |p.models| && Indexes.IDsOf(p)[j] == id;
        assert Offers(p, p.models[j], EffectiveAliasA(p.models[j]), id);
      }
      forall m, alias | Offers(p, m, alias, id) ensures id in Indexes.IDsOf(p) {
        var j :| 0 <= j < |p.models| && p.models[j] == m;
        assert Indexes.IDsOf(p)[j] == id;
      }
    }
  }

  /** The ids on the management list are those the providers offer, in order. */
  lemma IDsListed(cfg: Config, idx: Indexes.Indexes)
    requires Indexes.IndexOf(idx, cfg)
    ensures Sorting.Sorted(idx.internalIDs)
    ensures forall id :: id in idx.internalIDs <==>
                         exists p, m, alias :: p in cfg.providers && Offers(p, m, alias, id)
  {
    var ids := Indexes.InternalIDsOf(cfg.providers);
    forall id
      ensures id in idx.internalIDs <==> exists p, m, alias :: p in cfg.providers && Offers(p, m, alias, id)
    {
      assert id in idx.internalIDs <==> id in multiset(idx.internalIDs);
      assert id in ids <==> id in multiset(ids);
      IDsOffered(cfg.providers, id);
    }
  }
}
