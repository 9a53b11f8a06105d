/** The configs internal/config/validate.go accepts, described from the config alone. */
module Accepted {
  import opened Wrappers
  import opened Strings
  import opened JsonTree
  import opened Config
  import Validate

  predicate Known(protocol: string) {
    protocol in {"anthropic", "openai_completion", "codex"}
  }

  /** The alias a provider's model goes by. */
  function AliasOf(m: ProviderModel): string {
    if m.aliasA != "" then m.aliasA else m.model
  }

  /** A provider that can be called: it has a name that fits in an id, and a URL for its own protocol. */
  predicate Callable(p: Provider) {
    && p.name != "" && '/' !in p.name
    && Known(p.protocol) && (forall u :: u in p.urls ==> Known(u))
    && (p.url != "" || (p.protocol in p.urls && p.urls[p.protocol] != ""))
    && (p.maxConcurrency.Some? ==> p.maxConcurrency.value >= 0)
    && (forall j :: 0 <= j < |p.models| ==> p.models[j].model != "")
    && (forall i, j :: 0 <= i < j < |p.models| ==> AliasOf(p.models[i]) != AliasOf(p.models[j]))
  }

  /** Some provider offers a model under this id. */
  predicate Offered(cfg: Config, id: string) {
    exists p, m :: p in cfg.providers && m in p.models && id == p.name + "/" + AliasOf(m)
  }

  predicate Usable(cfg: Config, k: ClientApiKey) {
    && k.name != ""
    && (forall p :: p in k.allowedProtocols ==> Known(p))
    && (forall cm :: cm in k.models ==> Offered(cfg, cm.model))
  }

  predicate ClauseFits(c: PayloadModelRule) {
    && c.name != ""
    && (c.protocol == "" || Known(c.protocol))
    && (c.fromProtocol == "" || Known(c.fromProtocol))
  }

  /** The path starts at the model field. */
  predicate AtModel(path: string) {
    path == "model" || HasPrefix(path, "model.") || HasPrefix(path, "model[")
  }

  /** A rule that writes: never to the model field, and raw values are strings of one JSON value each. */
  predicate RuleFits(decode: string -> Option<Json>, raw: bool, r: PayloadRule) {
    && (forall c :: c in r.models ==> ClauseFits(c))
    && (forall path :: path in r.params ==>
          && !AtModel(path)
          && (raw ==> r.params[path].Str? && decode(r.params[path].s).Some?))
  }

  predicate FilterFits(r: PayloadFilterRule) {
    (forall c :: c in r.models ==> ClauseFits(c)) && forall path :: path in r.params ==> !AtModel(path)
  }

  predicate PayloadFits(decode: string -> Option<Json>, pc: PayloadConfig) {
    && (forall r :: r in pc.defaults + pc.overrides ==> RuleFits(decode, false, r))
    && (forall r :: r in pc.defaultRaw + pc.overrideRaw ==> RuleFits(decode, true, r))
    && (forall r :: r in pc.filter ==> FilterFits(r))
  }

  predicate Distinct(cfg: Config) {
    && (forall i, j :: 0 <= i < j < |cfg.providers| ==> cfg.providers[i].name != cfg.providers[j].name)
    && (forall i, j :: 0 <= i < j < |cfg.apiKeys| ==> cfg.apiKeys[i].name != cfg.apiKeys[j].name)
    && (forall i, j :: 0 <= i < j < |cfg.apiKeys| ==>
          cfg.apiKeys[i].key != cfg.apiKeys[j].key || cfg.apiKeys[i].key == "")
  }

  predicate Served(cfg: Config) {
    && cfg.listen.Some? && cfg.listen.value != ""
    && (cfg.management.enabled != Some(false) ==> cfg.management.adminKey != "")
  }

  /** A config as its design wants it. */
  predicate Sound(decode: string -> Option<Json>, cfg: Config) {
    && (forall p :: p in cfg.providers ==> Callable(p))
    && (forall k :: k in cfg.apiKeys ==> Usable(cfg, k))
    && Distinct(cfg)
    && PayloadFits(decode, cfg.payload)
    && Served(cfg)
  }

  // ---- an accepted config is sound ----

  lemma {:induction false} FirstSegmentIsModel(path: string)
    ensures Validate.FirstPathSegment(path) == "model" <==> AtModel(path)
  {
    var seg := Validate.FirstPathSegment(path);
    if seg == "model" && seg != path {
      assert path[..6] == "model" + [path[5]];
    }
    if AtModel(path) && path != "model" {
      assert path[..6] == "model" + [path[5]];
      assert forall i :: 0 <= i < 5 ==> path[i] == path[..6][i] == "model"[i];
      assert |seg| == 5 && seg == path[..6][..5];
    }
  }

  lemma ValidModels(decode: string -> Option<Json>, cfg: Config, i: nat)
    requires Validate.Valid(decode, cfg) && i < |cfg.providers|
    ensures
      var models := cfg.providers[i].models;
      && (forall j :: 0 <= j < |models| ==> models[j].model != "")
      && (forall a, b :: 0 <= a < b < |models| ==> AliasOf(models[a]) != AliasOf(models[b]))
  {
    var models := cfg.providers[i].models;
    forall j | 0 <= j < |models| ensures models[j].model != "" {
      assert !Validate.Problem(decode, cfg, Validate.ProviderModelRequired(i, j));
    }
    forall a, b | 0 <= a < b < |models| ensures AliasOf(models[a]) != AliasOf(models[b]) {
      assert !Validate.Problem(decode, cfg, Validate.DuplicateAliasA(i, b));
      assert EffectiveAliasA(Validate.ModelAt(cfg, i, a)) == AliasOf(models[a]);
    }
  }

  lemma ValidProvider(decode: string -> Option<Json>, cfg: Config, i: nat)
    requires Validate.Valid(decode, cfg) && i < |cfg.providers|
    ensures Callable(cfg.providers[i])
  {
    var p := cfg.providers[i];
    assert !Validate.Problem(decode, cfg, Validate.ProviderNameRequired(i));
    assert !Validate.Problem(decode, cfg, Validate.ProviderNameSlash(i));
    assert !Validate.Problem(decode, cfg, Validate.ProviderURLRequired(i));
    assert !Validate.Problem(decode, cfg, Validate.InvalidProviderType(i));
    assert !Validate.Problem(decode, cfg, Validate.InvalidMaxConcurrency(i));
    forall u | u in p.urls ensures Known(u) {
      assert !Validate.Problem(decode, cfg, Validate.InvalidURLProtocol(i, u));
    }
    ValidModels(decode, cfg, i);
  }

  lemma KnownIsOffered(cfg: Config, id: string)
    requires Validate.KnownID(cfg, id)
    ensures Offered(cfg, id)
  {
    var i, j :| Validate.HasID(cfg, i, j) && Validate.IDAt(cfg, i, j) == id;
    var p := cfg.providers[i];
    assert p in cfg.providers && p.models[j] in p.models && id == p.name + "/" + AliasOf(p.models[j]);
  }

  lemma ValidKey(decode: string -> Option<Json>, cfg: Config, n: nat)
    requires Validate.Valid(decode, cfg) && n < |cfg.apiKeys|
    ensures Usable(cfg, cfg.apiKeys[n])
  {
    var k := cfg.apiKeys[n];
    assert !Validate.Problem(decode, cfg, Validate.KeyNameRequired(n));
    forall p | p in k.allowedProtocols ensures Known(p) {
      var j :| 0 <= j < |k.allowedProtocols| && k.allowedProtocols[j] == p;
      assert !Validate.Problem(decode, cfg, Validate.InvalidAllowedProtocol(n, j));
    }
    forall cm | cm in k.models ensures Offered(cfg, cm.model) {
      var j :| 0 <= j < |k.models| && k.models[j] == cm;
      assert !Validate.Problem(decode, cfg, Validate.ClientModelRequired(n, j));
      assert !Validate.Problem(decode, cfg, Validate.ModelNotFound(n, j));
      KnownIsOffered(cfg, cm.model);
    }
  }

  lemma ValidDistinct(decode: string -> Option<Json>, cfg: Config)
    requires Validate.Valid(decode, cfg)
    ensures Distinct(cfg)
  {
    forall i, j | 0 <= i < j < |cfg.providers| ensures cfg.providers[i].name != cfg.providers[j].name {
      Validate.NamesDiffer(decode, cfg, i, j);
    }
    forall i, j | 0 <= i < j < |cfg.apiKeys|
      ensures cfg.apiKeys[i].name != cfg.apiKeys[j].name
      ensures cfg.apiKeys[i].key != cfg.apiKeys[j].key || cfg.apiKeys[i].key == ""
    {
      assert !Validate.Problem(decode, cfg, Validate.KeyNameRequired(j));
      assert !Validate.Problem(decode, cfg, Validate.DuplicateKeyName(j));
      assert !Validate.Problem(decode, cfg, Validate.DuplicateKey(j));
    }
  }

  lemma ValidClause(
      decode: string -> Option<Json>, cfg: Config, e: Validate.ValidationError, clauses: seq<PayloadModelRule>)
    requires Validate.Valid(decode, cfg) && Validate.IsClauseError(e)
    requires Validate.ClausesAt(cfg.payload, e.phase, e.r) == Some(clauses)
    ensures !Validate.ClauseProblem(clauses, e)
  {
    assert !Validate.Problem(decode, cfg, e);
  }

  lemma ValidClauses(
      decode: string -> Option<Json>, cfg: Config, phase: Validate.Phase, r: nat, clauses: seq<PayloadModelRule>)
    requires Validate.Valid(decode, cfg) && Validate.ClausesAt(cfg.payload, phase, r) == Some(clauses)
    ensures forall c :: c in clauses ==> ClauseFits(c)
  {
    forall c | c in clauses ensures ClauseFits(c) {
      var j :| 0 <= j < |clauses| && clauses[j] == c;
      ValidClause(decode, cfg, Validate.RuleNameRequired(phase, r, j), clauses);
      ValidClause(decode, cfg, Validate.InvalidRuleProtocol(phase, r, j), clauses);
      ValidClause(decode, cfg, Validate.InvalidRuleFromProtocol(phase, r, j), clauses);
    }
  }

  lemma ValidParam(decode: string -> Option<Json>, cfg: Config, phase: Validate.Phase, n: nat, path: string)
    requires Validate.Valid(decode, cfg) && Validate.WritesParam(cfg.payload, phase, n, path)
    ensures !AtModel(path)
    ensures Validate.IsRaw(phase) ==>
              Validate.IsFragment(decode, Validate.RulesOf(cfg.payload, phase)[n].params[path])
  {
    FirstSegmentIsModel(path);
    assert !Validate.Problem(decode, cfg, Validate.ModelFieldProtected(phase, n, path));
    assert !Validate.Problem(decode, cfg, Validate.InvalidRawJSON(phase, n, path));
  }

  lemma ValidRule(decode: string -> Option<Json>, cfg: Config, phase: Validate.Phase, n: nat)
    requires Validate.Valid(decode, cfg) && !phase.Filter? && n < |Validate.RulesOf(cfg.payload, phase)|
    ensures RuleFits(decode, Validate.IsRaw(phase), Validate.RulesOf(cfg.payload, phase)[n])
  {
    var r := Validate.RulesOf(cfg.payload, phase)[n];
    ValidClauses(decode, cfg, phase, n, r.models);
    forall path | path in r.params
      ensures !AtModel(path)
      ensures Validate.IsRaw(phase) ==> r.params[path].Str? && decode(r.params[path].s).Some?
    {
      ValidParam(decode, cfg, phase, n, path);
    }
  }

  lemma ValidRules(decode: string -> Option<Json>, cfg: Config, phase: Validate.Phase)
    requires Validate.Valid(decode, cfg) && !phase.Filter?
    ensures forall r :: r in Validate.RulesOf(cfg.payload, phase) ==> RuleFits(decode, Validate.IsRaw(phase), r)
  {
    var rules := Validate.RulesOf(cfg.payload, phase);
    forall r | r in rules ensures RuleFits(decode, Validate.IsRaw(phase), r) {
      var n :| 0 <= n < |rules| && rules[n] == r;
      ValidRule(decode, cfg, phase, n);
    }
  }

  lemma ValidPayload(decode: string -> Option<Json>, cfg: Config)
    requires Validate.Valid(decode, cfg)
    ensures PayloadFits(decode, cfg.payload)
  {
    ValidRules(decode, cfg, Validate.Default);
    ValidRules(decode, cfg, Validate.DefaultRaw);
    ValidRules(decode, cfg, Validate.Override);
    ValidRules(decode, cfg, Validate.OverrideRaw);
    ValidFilters(decode, cfg);
    var pc := cfg.payload;
    assert Validate.RulesOf(pc, Validate.Default) == pc.defaults && Validate.RulesOf(pc, Validate.Override) == pc.overrides;
    assert Validate.RulesOf(pc, Validate.DefaultRaw) == pc.defaultRaw;
    assert Validate.RulesOf(pc, Validate.OverrideRaw) == pc.overrideRaw;
    assert !Validate.IsRaw(Validate.Default) && !Validate.IsRaw(Validate.Override);
    assert Validate.IsRaw(Validate.DefaultRaw) && Validate.IsRaw(Validate.OverrideRaw);
  }

  lemma ValidFilters(decode: string -> Option<Json>, cfg: Config)
    requires Validate.Valid(decode, cfg)
    ensures forall r :: r in cfg.payload.filter ==> FilterFits(r)
  {
    forall r | r in cfg.payload.filter ensures FilterFits(r) {
      var n :| 0 <= n < |cfg.payload.filter| && cfg.payload.filter[n] == r;
      ValidClauses(decode, cfg, Validate.Filter, n, r.models);
      forall path | path in r.params ensures !AtModel(path) {
        FirstSegmentIsModel(path);
        assert !Validate.Problem(decode, cfg, Validate.ModelFieldProtected(Validate.Filter, n, path));
      }
    }
  }

  lemma ValidIsSound(decode: string -> Option<Json>, cfg: Config)
    requires Validate.Valid(decode, cfg)
    ensures Sound(decode, cfg)
  {
    forall p | p in cfg.providers ensures Callable(p) {
      var i :| 0 <= i < |cfg.providers| && cfg.providers[i] == p;
      ValidProvider(decode, cfg, i);
    }
    forall k | k in cfg.apiKeys ensures Usable(cfg, k) {
      var n :| 0 <= n < |cfg.apiKeys| && cfg.apiKeys[n] == k;
      ValidKey(decode, cfg, n);
    }
    ValidDistinct(decode, cfg);
    ValidPayload(decode, cfg);
    assert !Validate.Problem(decode, cfg, Validate.ListenRequired);
    assert !Validate.Problem(decode, cfg, Validate.AdminKeyRequired);
  }

  // ---- a sound config is accepted ----

  lemma SoundProviders(decode: string -> Option<Json>, cfg: Config, e: Validate.ValidationError)
    requires Sound(decode, cfg)
    ensures !Validate.ProviderProblem(cfg, e)
  {
    var i := Validate.ProviderIndex(e);
    if 0 <= i < |cfg.providers| {
      assert Callable(cfg.providers[i]);
    }
  }

  lemma SoundAliases(decode: string -> Option<Json>, cfg: Config, e: Validate.ValidationError)
    requires Sound(decode, cfg)
    ensures !e.DuplicateInternalModel? ==> !Validate.ModelProblem(cfg, e)
  {
    var i := Validate.ProviderIndex(e);
    if 0 <= i < |cfg.providers| {
      assert Callable(cfg.providers[i]);
    }
  }

  lemma SoundModels(decode: string -> Option<Json>, cfg: Config, e: Validate.ValidationError)
    requires Sound(decode, cfg)
    ensures !Validate.ModelProblem(cfg, e)
  {
    forall e': Validate.ValidationError
      ensures !Validate.ProviderProblem(cfg, e')
      ensures !e'.DuplicateInternalModel? ==> !Validate.ModelProblem(cfg, e')
    {
      SoundProviders(decode, cfg, e');
      SoundAliases(decode, cfg, e');
    }
    if Validate.ModelProblem(cfg, e) {
      Validate.DuplicateInternalIsRedundant(cfg, e.i, e.j);
    }
  }

  lemma OfferedIsKnown(decode: string -> Option<Json>, cfg: Config, id: string)
    requires Sound(decode, cfg) && Offered(cfg, id)
    ensures Validate.KnownID(cfg, id) && id != ""
  {
    var p, m :| p in cfg.providers && m in p.models && id == p.name + "/" + AliasOf(m);
    var i :| 0 <= i < |cfg.providers| && cfg.providers[i] == p;
    var j :| 0 <= j < |p.models| && p.models[j] == m;
    assert Callable(p);
    assert Validate.HasID(cfg, i, j) && Validate.IDAt(cfg, i, j) == id;
  }

  lemma ListedIsKnown(decode: string -> Option<Json>, cfg: Config, k: int, j: int)
    requires Sound(decode, cfg) && 0 <= k < |cfg.apiKeys| && 0 <= j < |cfg.apiKeys[k].models|
    ensures cfg.apiKeys[k].models[j].model != "" && Validate.KnownID(cfg, cfg.apiKeys[k].models[j].model)
  {
    assert Usable(cfg, cfg.apiKeys[k]) && cfg.apiKeys[k].models[j] in cfg.apiKeys[k].models;
    OfferedIsKnown(decode, cfg, cfg.apiKeys[k].models[j].model);
  }

  predicate KeyFits(k: ClientApiKey) {
    k.name != "" && forall j :: 0 <= j < |k.allowedProtocols| ==> IsProtocol(k.allowedProtocols[j])
  }

  lemma KeyFitsOne(cfg: Config, k: ClientApiKey)
    requires Usable(cfg, k)
    ensures KeyFits(k)
  {
    forall j | 0 <= j < |k.allowedProtocols| ensures IsProtocol(k.allowedProtocols[j]) {
      assert Known(k.allowedProtocols[j]);
    }
  }

  lemma SoundKeys(decode: string -> Option<Json>, cfg: Config, e: Validate.ValidationError)
    requires Sound(decode, cfg)
    ensures !Validate.KeyProblem(cfg, e)
  {
    forall k, j | 0 <= k < |cfg.apiKeys| && 0 <= j < |cfg.apiKeys[k].models|
      ensures cfg.apiKeys[k].models[j].model != "" && Validate.KnownID(cfg, cfg.apiKeys[k].models[j].model)
    {
      ListedIsKnown(decode, cfg, k, j);
    }
    forall k | 0 <= k < |cfg.apiKeys| ensures KeyFits(cfg.apiKeys[k]) {
      KeyFitsOne(cfg, cfg.apiKeys[k]);
    }
  }

  lemma SoundRule(decode: string -> Option<Json>, cfg: Config, phase: Validate.Phase, r: nat)
    requires Sound(decode, cfg) && !phase.Filter? && r < |Validate.RulesOf(cfg.payload, phase)|
    ensures RuleFits(decode, Validate.IsRaw(phase), Validate.RulesOf(cfg.payload, phase)[r])
  {
    var rule := Validate.RulesOf(cfg.payload, phase)[r];
    if Validate.IsRaw(phase) {
      assert rule in cfg.payload.defaultRaw + cfg.payload.overrideRaw;
    } else {
      assert rule in cfg.payload.defaults + cfg.payload.overrides;
    }
  }

  lemma SoundClauses(decode: string -> Option<Json>, cfg: Config, phase: Validate.Phase, r: int)
    requires Sound(decode, cfg) && Validate.ClausesAt(cfg.payload, phase, r).Some?
    ensures
      var clauses := Validate.ClausesAt(cfg.payload, phase, r).value;
      forall j :: 0 <= j < |clauses| ==> ClauseFits(clauses[j])
  {
    if phase.Filter? {
      assert FilterFits(cfg.payload.filter[r]);
    } else {
      SoundRule(decode, cfg, phase, r);
    }
  }

  lemma SoundPaths(decode: string -> Option<Json>, cfg: Config, e: Validate.ValidationError)
    requires Sound(decode, cfg)
    ensures !Validate.ParamProblem(decode, cfg.payload, e)
  {
    if e.ModelFieldProtected? || e.InvalidRawJSON? {
      FirstSegmentIsModel(e.path);
      if e.phase.Filter? {
        assert 0 <= e.r < |cfg.payload.filter| ==> FilterFits(cfg.payload.filter[e.r]);
      } else if 0 <= e.r < |Validate.RulesOf(cfg.payload, e.phase)| {
        SoundRule(decode, cfg, e.phase, e.r);
      }
    }
  }

  lemma SoundPayload(decode: string -> Option<Json>, cfg: Config, e: Validate.ValidationError)
    requires Sound(decode, cfg)
    ensures !Validate.PayloadProblem(decode, cfg.payload, e)
  {
    SoundPaths(decode, cfg, e);
    if Validate.IsClauseError(e) && Validate.ClausesAt(cfg.payload, e.phase, e.r).Some? {
      SoundClauses(decode, cfg, e.phase, e.r);
    }
  }

  /** Validation accepts exactly the sound configs. */
  lemma AcceptedIffSound(decode: string -> Option<Json>, cfg: Config)
    ensures Validate.Valid(decode, cfg) <==> Sound(decode, cfg)
  {
    if Validate.Valid(decode, cfg) {
      ValidIsSound(decode, cfg);
    }
    if Sound(decode, cfg) {
      forall e ensures !Validate.Problem(decode, cfg, e) {
        SoundProviders(decode, cfg, e);
        SoundModels(decode, cfg, e);
        SoundKeys(decode, cfg, e);
        SoundPayload(decode, cfg, e);
      }
    }
  }
}
