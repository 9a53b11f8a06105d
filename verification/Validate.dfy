/** internal/config/validate.go and validate_payload.go: every problem of a config, at its place. */
module Validate {
  import opened Wrappers
  import opened Strings
  import opened JsonTree
  import opened Config

  datatype Phase = Default | DefaultRaw | Override | OverrideRaw | Filter

  /** An error code with the indices of the field it points at. */
  datatype ValidationError =
    | ProviderNameRequired(i: int)
    | ProviderNameSlash(i: int)
    | DuplicateProvider(i: int)
    | ProviderURLRequired(i: int)
    | InvalidURLProtocol(i: int, protocol: string)
    | InvalidProviderType(i: int)
    | InvalidMaxConcurrency(i: int)
    | ProviderModelRequired(i: int, j: int)
    | DuplicateAliasA(i: int, j: int)
    | DuplicateInternalModel(i: int, j: int)
    | KeyNameRequired(k: int)
    | DuplicateKeyName(k: int)
    | DuplicateKey(k: int)
    | InvalidAllowedProtocol(k: int, j: int)
    | ClientModelRequired(k: int, j: int)
    | ModelNotFound(k: int, j: int)
    | RuleNameRequired(phase: Phase, r: int, j: int)
    | InvalidRuleProtocol(phase: Phase, r: int, j: int)
    | InvalidRuleFromProtocol(phase: Phase, r: int, j: int)
    | ModelFieldProtected(phase: Phase, r: int, path: string)
    | InvalidRawJSON(phase: Phase, r: int, path: string)
    | ListenRequired
    | AdminKeyRequired

  // ---- what is wrong with a config, declaratively ----

  predicate IsModel(cfg: Config, i: int, j: int) {
    0 <= i < |cfg.providers| && 0 <= j < |cfg.providers[i].models|
  }

  function ModelAt(cfg: Config, i: int, j: int): ProviderModel
    requires IsModel(cfg, i, j)
  {
    cfg.providers[i].models[j]
  }

  /** A model that gets an internal id: it and its provider have names. */
  predicate HasID(cfg: Config, i: int, j: int) {
    IsModel(cfg, i, j) && cfg.providers[i].name != "" && ModelAt(cfg, i, j).model != ""
  }

  function IDAt(cfg: Config, i: int, j: int): string
    requires IsModel(cfg, i, j)
  {
    ModelInternalID(cfg.providers[i].name, ModelAt(cfg, i, j))
  }

  /** Some model before (i, j), in declaration order, has this id. */
  ghost predicate IDBefore(cfg: Config, i: int, j: int, id: string) {
    exists i', j' :: HasID(cfg, i', j') && (i' < i || (i' == i && j' < j)) && IDAt(cfg, i', j') == id
  }

  ghost predicate KnownID(cfg: Config, id: string) {
    exists i, j :: HasID(cfg, i, j) && IDAt(cfg, i, j) == id
  }

  ghost predicate ProviderProblem(cfg: Config, e: ValidationError) {
    match e
    case ProviderNameRequired(i) => 0 <= i < |cfg.providers| && cfg.providers[i].name == ""
    case ProviderNameSlash(i) => 0 <= i < |cfg.providers| && '/' in cfg.providers[i].name
    case DuplicateProvider(i) =>
      0 <= i < |cfg.providers| && cfg.providers[i].name != "" &&
      exists k :: 0 <= k < i && cfg.providers[k].name == cfg.providers[i].name
    case ProviderURLRequired(i) =>
      0 <= i < |cfg.providers| && UpstreamFor(cfg.providers[i], cfg.providers[i].protocol).1 == ""
    case InvalidURLProtocol(i, p) => 0 <= i < |cfg.providers| && p in cfg.providers[i].urls && !IsProtocol(p)
    case InvalidProviderType(i) => 0 <= i < |cfg.providers| && !IsProtocol(cfg.providers[i].protocol)
    case InvalidMaxConcurrency(i) =>
      0 <= i < |cfg.providers| && cfg.providers[i].maxConcurrency.Some? && cfg.providers[i].maxConcurrency.value < 0
    case _ => false
  }

  ghost predicate ModelProblem(cfg: Config, e: ValidationError) {
    match e
    case ProviderModelRequired(i, j) => IsModel(cfg, i, j) && ModelAt(cfg, i, j).model == ""
    case DuplicateAliasA(i, j) =>
      IsModel(cfg, i, j) &&
      exists k :: 0 <= k < j && EffectiveAliasA(ModelAt(cfg, i, k)) == EffectiveAliasA(ModelAt(cfg, i, j))
    case DuplicateInternalModel(i, j) => HasID(cfg, i, j) && IDBefore(cfg, i, j, IDAt(cfg, i, j))
    case _ => false
  }

  ghost predicate KeyProblem(cfg: Config, e: ValidationError) {
    match e
    case KeyNameRequired(k) => 0 <= k < |cfg.apiKeys| && cfg.apiKeys[k].name == ""
    case DuplicateKeyName(k) =>
      0 <= k < |cfg.apiKeys| && cfg.apiKeys[k].name != "" &&
      exists l :: 0 <= l < k && cfg.apiKeys[l].name == cfg.apiKeys[k].name
    case DuplicateKey(k) =>
      0 <= k < |cfg.apiKeys| && cfg.apiKeys[k].key != "" &&
      exists l :: 0 <= l < k && cfg.apiKeys[l].key == cfg.apiKeys[k].key
    case InvalidAllowedProtocol(k, j) =>
      0 <= k < |cfg.apiKeys| && 0 <= j < |cfg.apiKeys[k].allowedProtocols| &&
      !IsProtocol(cfg.apiKeys[k].allowedProtocols[j])
    case ClientModelRequired(k, j) =>
      0 <= k < |cfg.apiKeys| && 0 <= j < |cfg.apiKeys[k].models| && cfg.apiKeys[k].models[j].model == ""
    case ModelNotFound(k, j) =>
      0 <= k < |cfg.apiKeys| && 0 <= j < |cfg.apiKeys[k].models| && cfg.apiKeys[k].models[j].model != "" &&
      !KnownID(cfg, cfg.apiKeys[k].models[j].model)
    case _ => false
  }

  /** Everything before the first '.' or '['. */
  function FirstPathSegment(path: string): (r: string)
    ensures r <= path
    ensures '.' !in r && '[' !in r
    ensures r == path || path[|r|] == '.' || path[|r|] == '['
  {
    if path == "" || path[0] == '.' || path[0] == '[' then "" else [path[0]] + FirstPathSegment(path[1..])
  }

  function RulesOf(pc: PayloadConfig, phase: Phase): seq<PayloadRule>
    requires !phase.Filter?
  {
    match phase
    case Default => pc.defaults
    case DefaultRaw => pc.defaultRaw
    case Override => pc.overrides
    case OverrideRaw => pc.overrideRaw
  }

  /** The model clauses of rule `r`, in any phase. */
  function ClausesAt(pc: PayloadConfig, phase: Phase, r: int): Option<seq<PayloadModelRule>> {
    if phase.Filter? then
      if 0 <= r < |pc.filter| then Some(pc.filter[r].models) else None
    else
      if 0 <= r < |RulesOf(pc, phase)| then Some(RulesOf(pc, phase)[r].models) else None
  }

  predicate IsRaw(phase: Phase) {
    phase.DefaultRaw? || phase.OverrideRaw?
  }

  /** A raw value: a string holding one JSON value. */
  predicate IsFragment(decode: string -> Option<Json>, v: Json) {
    v.Str? && decode(v.s).Some?
  }

  predicate WritesParam(pc: PayloadConfig, phase: Phase, r: int, path: string) {
    !phase.Filter? && 0 <= r < |RulesOf(pc, phase)| && path in RulesOf(pc, phase)[r].params
  }

  ghost predicate ClauseProblem(clauses: seq<PayloadModelRule>, e: ValidationError) {
    match e
    case RuleNameRequired(_, _, j) => 0 <= j < |clauses| && clauses[j].name == ""
    case InvalidRuleProtocol(_, _, j) =>
      0 <= j < |clauses| && clauses[j].protocol != "" && !IsProtocol(clauses[j].protocol)
    case InvalidRuleFromProtocol(_, _, j) =>
      0 <= j < |clauses| && clauses[j].fromProtocol != "" && !IsProtocol(clauses[j].fromProtocol)
    case _ => false
  }

  ghost predicate ParamProblem(decode: string -> Option<Json>, pc: PayloadConfig, e: ValidationError) {
    match e
    case ModelFieldProtected(phase, r, path) =>
      FirstPathSegment(path) == "model" &&
      if phase.Filter? then 0 <= r < |pc.filter| && path in pc.filter[r].params else WritesParam(pc, phase, r, path)
    case InvalidRawJSON(phase, r, path) =>
      && FirstPathSegment(path) != "model" && IsRaw(phase) && WritesParam(pc, phase, r, path)
      && !IsFragment(decode, RulesOf(pc, phase)[r].params[path])
    case _ => false
  }

  predicate IsClauseError(e: ValidationError) {
    e.RuleNameRequired? || e.InvalidRuleProtocol? || e.InvalidRuleFromProtocol?
  }

  ghost predicate PayloadProblem(decode: string -> Option<Json>, pc: PayloadConfig, e: ValidationError) {
    if IsClauseError(e) then
      ClausesAt(pc, e.phase, e.r).Some? && ClauseProblem(ClausesAt(pc, e.phase, e.r).value, e)
    else ParamProblem(decode, pc, e)
  }

  ghost predicate BasicProblem(cfg: Config, e: ValidationError) {
    || (e.ListenRequired? && (cfg.listen.None? || cfg.listen.value == ""))
    || (e.AdminKeyRequired? && ManagementEnabled(cfg.management) && cfg.management.adminKey == "")
  }

  /** The problem `e` names is there. */
  ghost predicate Problem(decode: string -> Option<Json>, cfg: Config, e: ValidationError) {
    || ProviderProblem(cfg, e)
    || ModelProblem(cfg, e)
    || KeyProblem(cfg, e)
    || PayloadProblem(decode, cfg.payload, e)
    || BasicProblem(cfg, e)
  }

  ghost predicate Valid(decode: string -> Option<Json>, cfg: Config) {
    forall e :: !Problem(decode, cfg, e)
  }

  // ---- the checks, in the source's order ----

  /** The provider an error points at. */
  function ProviderIndex(e: ValidationError): int {
    match e
    case ProviderNameRequired(i) => i
    case ProviderNameSlash(i) => i
    case DuplicateProvider(i) => i
    case ProviderURLRequired(i) => i
    case InvalidURLProtocol(i, _) => i
    case InvalidProviderType(i) => i
    case InvalidMaxConcurrency(i) => i
    case ProviderModelRequired(i, _) => i
    case DuplicateAliasA(i, _) => i
    case DuplicateInternalModel(i, _) => i
    case _ => -1
  }

  function ModelIndex(e: ValidationError): int {
    match e
    case ProviderModelRequired(_, j) => j
    case DuplicateAliasA(_, j) => j
    case DuplicateInternalModel(_, j) => j
    case _ => -1
  }

  /** The names of the providers before `i`. */
  ghost predicate SeenProviders(cfg: Config, i: int, seen: set<string>) {
    forall n :: n in seen <==> n != "" && exists k :: 0 <= k < i && k < |cfg.providers| && cfg.providers[k].name == n
  }

  method CheckName(cfg: Config, i: nat, seen: set<string>) returns (errs: seq<ValidationError>, seen': set<string>)
    requires i < |cfg.providers| && SeenProviders(cfg, i, seen)
    ensures SeenProviders(cfg, i + 1, seen')
    ensures forall e :: e in errs <==> ProviderProblem(cfg, e) && ProviderIndex(e) == i &&
                                       (e.ProviderNameRequired? || e.ProviderNameSlash? || e.DuplicateProvider?)
  {
    var p := cfg.providers[i];
    errs, seen' := [], seen;
    if p.name == "" {
      errs := errs + [ProviderNameRequired(i)];
    } else {
      if '/' in p.name {
        errs := errs + [ProviderNameSlash(i)];
      }
      if p.name in seen {
        errs := errs + [DuplicateProvider(i)];
      } else {
        seen' := seen + {p.name};
      }
    }
  }

  method CheckUpstreams(cfg: Config, i: nat) returns (errs: seq<ValidationError>)
    requires i < |cfg.providers|
    ensures forall e :: e in errs <==> ProviderProblem(cfg, e) && ProviderIndex(e) == i &&
                                       (e.ProviderURLRequired? || e.InvalidURLProtocol? || e.InvalidProviderType?
                                        || e.InvalidMaxConcurrency?)
  {
    var p := cfg.providers[i];
    errs := [];
    if UpstreamFor(p, p.protocol).1 == "" {
      errs := errs + [ProviderURLRequired(i)];
    }
    var left := p.urls.Keys;
    while left != {}
      invariant left <= p.urls.Keys
      invariant forall e :: e in errs <==>
                  || (e == ProviderURLRequired(i) && UpstreamFor(p, p.protocol).1 == "")
                  || (e.InvalidURLProtocol? && e.i == i && e.protocol in p.urls.Keys - left && !IsProtocol(e.protocol))
      decreases left
    {
      var pr :| pr in left;  // a map is ranged over in any order
      if !IsProtocol(pr) {
        errs := errs + [InvalidURLProtocol(i, pr)];
      }
      left := left - {pr};
    }
    if !IsProtocol(p.protocol) {
      errs := errs + [InvalidProviderType(i)];
    }
    if p.maxConcurrency.Some? && p.maxConcurrency.value < 0 {
      errs := errs + [InvalidMaxConcurrency(i)];
    }
  }

  /** The internal ids of the models before (i, j). */
  ghost predicate SeenIDs(cfg: Config, i: int, j: int, ids: set<string>) {
    forall id :: id in ids <==> IDBefore(cfg, i, j, id)
  }

  ghost predicate SeenAliases(cfg: Config, i: int, j: int, seen: set<string>) {
    forall a :: a in seen <==> exists k :: 0 <= k < j && IsModel(cfg, i, k) && EffectiveAliasA(ModelAt(cfg, i, k)) == a
  }

  lemma NextID(cfg: Config, i: int, j: int, id: string)
    requires IsModel(cfg, i, j)
    ensures IDBefore(cfg, i, j + 1, id) <==> IDBefore(cfg, i, j, id) || (HasID(cfg, i, j) && IDAt(cfg, i, j) == id)
  {
    if IDBefore(cfg, i, j + 1, id) {
      var i', j' :| HasID(cfg, i', j') && (i' < i || (i' == i && j' < j + 1)) && IDAt(cfg, i', j') == id;
      assert (i' == i && j' == j) || i' < i || (i' == i && j' < j);
    }
    if IDBefore(cfg, i, j, id) {
      var i', j' :| HasID(cfg, i', j') && (i' < i || (i' == i && j' < j)) && IDAt(cfg, i', j') == id;
    }
  }

  /** Past the last model of a provider comes the first of the next one. */
  lemma NextProvider(cfg: Config, i: int, id: string)
    requires 0 <= i < |cfg.providers|
    ensures IDBefore(cfg, i + 1, 0, id) <==> IDBefore(cfg, i, |cfg.providers[i].models|, id)
  {
    if IDBefore(cfg, i + 1, 0, id) {
      var i', j' :| HasID(cfg, i', j') && (i' < i + 1 || (i' == i + 1 && j' < 0)) && IDAt(cfg, i', j') == id;
      assert i' < i || (i' == i && j' < |cfg.providers[i].models|);
    }
    if IDBefore(cfg, i, |cfg.providers[i].models|, id) {
      var i', j' :| HasID(cfg, i', j') && (i' < i || (i' == i && j' < |cfg.providers[i].models|)) && IDAt(cfg, i', j') == id;
    }
  }

  method CheckModel(cfg: Config, i: nat, j: nat, aliases: set<string>, ids: set<string>)
    returns (errs: seq<ValidationError>, aliases': set<string>, ids': set<string>)
    requires IsModel(cfg, i, j) && SeenAliases(cfg, i, j, aliases) && SeenIDs(cfg, i, j, ids)
    ensures SeenAliases(cfg, i, j + 1, aliases') && SeenIDs(cfg, i, j + 1, ids')
    ensures forall e :: e in errs <==> ModelProblem(cfg, e) && ProviderIndex(e) == i && ModelIndex(e) == j
  {
    errs, aliases', ids' := [], aliases, ids;
    var m := ModelAt(cfg, i, j);
    if m.model == "" {
      errs := errs + [ProviderModelRequired(i, j)];
    }
    var eff := EffectiveAliasA(m);
    if eff in aliases {
      errs := errs + [DuplicateAliasA(i, j)];
    } else {
      aliases' := aliases + {eff};
    }
    if cfg.providers[i].name != "" && m.model != "" {
      var id := IDAt(cfg, i, j);
      if id in ids {
        errs := errs + [DuplicateInternalModel(i, j)];
      } else {
        ids' := ids + {id};
      }
    }
    forall id ensures id in ids' <==> IDBefore(cfg, i, j + 1, id) {
      NextID(cfg, i, j, id);
    }
  }

  method CheckModels(cfg: Config, i: nat, ids: set<string>) returns (errs: seq<ValidationError>, ids': set<string>)
    requires i < |cfg.providers| && SeenIDs(cfg, i, 0, ids)
    ensures SeenIDs(cfg, i + 1, 0, ids')
    ensures forall e :: e in errs <==> ModelProblem(cfg, e) && ProviderIndex(e) == i
  {
    errs, ids' := [], ids;
    var aliases: set<string> := {};
    var j := 0;
    while j < |cfg.providers[i].models|
      invariant 0 <= j <= |cfg.providers[i].models|
      invariant SeenAliases(cfg, i, j, aliases) && SeenIDs(cfg, i, j, ids')
      invariant forall e :: e in errs <==> ModelProblem(cfg, e) && ProviderIndex(e) == i && ModelIndex(e) < j
    {
      var more;
      more, aliases, ids' := CheckModel(cfg, i, j, aliases, ids');
      errs := errs + more;
      j := j + 1;
    }
    forall id ensures id in ids' <==> IDBefore(cfg, i + 1, 0, id) {
      NextProvider(cfg, i, id);
    }
  }

  method CheckProviders(cfg: Config) returns (errs: seq<ValidationError>, ids: set<string>)
    ensures forall id :: id in ids <==> KnownID(cfg, id)
    ensures forall e :: e in errs <==> ProviderProblem(cfg, e) || ModelProblem(cfg, e)
  {
    errs, ids := [], {};
    var seen: set<string> := {};
    var i := 0;
    while i < |cfg.providers|
      invariant 0 <= i <= |cfg.providers|
      invariant SeenProviders(cfg, i, seen) && SeenIDs(cfg, i, 0, ids)
      invariant forall e :: e in errs <==> (ProviderProblem(cfg, e) || ModelProblem(cfg, e)) && ProviderIndex(e) < i
    {
      var named, reached, modelled;
      named, seen := CheckName(cfg, i, seen);
      reached := CheckUpstreams(cfg, i);
      modelled, ids := CheckModels(cfg, i, ids);
      errs := errs + named + reached + modelled;
      i := i + 1;
    }
    forall id ensures id in ids <==> KnownID(cfg, id) {
      if KnownID(cfg, id) {
        var i', j' :| HasID(cfg, i', j') && IDAt(cfg, i', j') == id;
        assert i' < i;
      }
    }
  }

  /** The key an error points at. */
  function KeyIndex(e: ValidationError): int {
    match e
    case KeyNameRequired(k) => k
    case DuplicateKeyName(k) => k
    case DuplicateKey(k) => k
    case InvalidAllowedProtocol(k, _) => k
    case ClientModelRequired(k, _) => k
    case ModelNotFound(k, _) => k
    case _ => -1
  }

  ghost predicate SeenKeys(cfg: Config, k: int, names: set<string>, values: set<string>) {
    && (forall n :: n in names <==> n != "" && exists l :: 0 <= l < k && l < |cfg.apiKeys| && cfg.apiKeys[l].name == n)
    && (forall v :: v in values <==> v != "" && exists l :: 0 <= l < k && l < |cfg.apiKeys| && cfg.apiKeys[l].key == v)
  }

  method CheckKeyFields(cfg: Config, k: nat, names: set<string>, values: set<string>)
    returns (errs: seq<ValidationError>, names': set<string>, values': set<string>)
    requires k < |cfg.apiKeys| && SeenKeys(cfg, k, names, values)
    ensures SeenKeys(cfg, k + 1, names', values')
    ensures forall e :: e in errs <==> KeyProblem(cfg, e) && KeyIndex(e) == k &&
                                       (e.KeyNameRequired? || e.DuplicateKeyName? || e.DuplicateKey?)
  {
    var key := cfg.apiKeys[k];
    errs, names', values' := [], names, values;
    if key.name == "" {
      errs := errs + [KeyNameRequired(k)];
    } else if key.name in names {
      errs := errs + [DuplicateKeyName(k)];
    } else {
      names' := names + {key.name};
    }
    if key.key != "" {
      if key.key in values {
        errs := errs + [DuplicateKey(k)];
      } else {
        values' := values + {key.key};
      }
    }
  }

  method CheckKeyLists(cfg: Config, k: nat, ids: set<string>) returns (errs: seq<ValidationError>)
    requires k < |cfg.apiKeys| && forall id :: id in ids <==> KnownID(cfg, id)
    ensures forall e :: e in errs <==> KeyProblem(cfg, e) && KeyIndex(e) == k &&
                                       (e.InvalidAllowedProtocol? || e.ClientModelRequired? || e.ModelNotFound?)
  {
    var key := cfg.apiKeys[k];
    errs := [];
    var j := 0;
    while j < |key.allowedProtocols|
      invariant 0 <= j <= |key.allowedProtocols|
      invariant forall e :: e in errs <==>
                  e.InvalidAllowedProtocol? && e.k == k && 0 <= e.j < j && !IsProtocol(key.allowedProtocols[e.j])
    {
      if !IsProtocol(key.allowedProtocols[j]) {
        errs := errs + [InvalidAllowedProtocol(k, j)];
      }
      j := j + 1;
    }
    var protocolErrs := errs;
    var modelErrs: seq<ValidationError> := [];
    j := 0;
    while j < |key.models|
      invariant 0 <= j <= |key.models|
      invariant forall e :: e in modelErrs <==>
                  (e.ClientModelRequired? || e.ModelNotFound?) && e.k == k && e.j < j && KeyProblem(cfg, e)
    {
      if key.models[j].model == "" {
        modelErrs := modelErrs + [ClientModelRequired(k, j)];
      } else if key.models[j].model !in ids {
        modelErrs := modelErrs + [ModelNotFound(k, j)];
      }
      j := j + 1;
    }
    errs := protocolErrs + modelErrs;
  }

  method CheckKeys(cfg: Config, ids: set<string>) returns (errs: seq<ValidationError>)
    requires forall id :: id in ids <==> KnownID(cfg, id)
    ensures forall e :: e in errs <==> KeyProblem(cfg, e)
  {
    errs := [];
    var names: set<string>, values: set<string> := {}, {};
    var k := 0;
    while k < |cfg.apiKeys|
      invariant 0 <= k <= |cfg.apiKeys|
      invariant SeenKeys(cfg, k, names, values)
      invariant forall e :: e in errs <==> KeyProblem(cfg, e) && KeyIndex(e) < k
    {
      var fields, lists;
      fields, names, values := CheckKeyFields(cfg, k, names, values);
      lists := CheckKeyLists(cfg, k, ids);
      errs := errs + fields + lists;
      k := k + 1;
    }
  }

  /** One clause of a rule. */
  method CheckClause(phase: Phase, r: int, clauses: seq<PayloadModelRule>, j: nat) returns (errs: seq<ValidationError>)
    requires j < |clauses|
    ensures forall e :: e in errs <==> IsClauseErrorAt(e, phase, r) && e.j == j && ClauseProblem(clauses, e)
  {
    errs := [];
    if clauses[j].name == "" {
      errs := errs + [RuleNameRequired(phase, r, j)];
    }
    if clauses[j].protocol != "" && !IsProtocol(clauses[j].protocol) {
      errs := errs + [InvalidRuleProtocol(phase, r, j)];
    }
    if clauses[j].fromProtocol != "" && !IsProtocol(clauses[j].fromProtocol) {
      errs := errs + [InvalidRuleFromProtocol(phase, r, j)];
    }
  }

  predicate IsClauseErrorAt(e: ValidationError, phase: Phase, r: int) {
    IsClauseError(e) && e.phase == phase && e.r == r
  }

  /** validateModelRules. */
  method CheckClauses(phase: Phase, r: int, clauses: seq<PayloadModelRule>) returns (errs: seq<ValidationError>)
    ensures forall e :: e in errs <==> IsClauseErrorAt(e, phase, r) && ClauseProblem(clauses, e)
  {
    errs := [];
    var j := 0;
    while j < |clauses|
      invariant 0 <= j <= |clauses|
      invariant forall e :: e in errs <==> IsClauseErrorAt(e, phase, r) && e.j < j && ClauseProblem(clauses, e)
    {
      var problems := CheckClause(phase, r, clauses, j);
      errs := errs + problems;
      j := j + 1;
    }
  }

  predicate IsPayloadError(e: ValidationError) {
    IsClauseError(e) || e.ModelFieldProtected? || e.InvalidRawJSON?
  }

  /** One parameter of a writing rule. */
  method CheckParam(decode: string -> Option<Json>, pc: PayloadConfig, phase: Phase, r: nat, path: string)
    returns (errs: seq<ValidationError>)
    requires !phase.Filter? && r < |RulesOf(pc, phase)| && path in RulesOf(pc, phase)[r].params
    ensures forall e :: e in errs <==> IsParamError(e, phase, r) && e.path == path && ParamProblem(decode, pc, e)
  {
    if FirstPathSegment(path) == "model" {
      return [ModelFieldProtected(phase, r, path)];
    }
    if IsRaw(phase) {
      if !IsFragment(decode, RulesOf(pc, phase)[r].params[path]) {
        return [InvalidRawJSON(phase, r, path)];
      }
    }
    return [];
  }

  predicate IsParamError(e: ValidationError, phase: Phase, r: int) {
    (e.ModelFieldProtected? || e.InvalidRawJSON?) && e.phase == phase && e.r == r
  }

  /** The parameters of one writing rule, ranged over in any order. */
  method CheckParams(decode: string -> Option<Json>, pc: PayloadConfig, phase: Phase, r: nat)
    returns (errs: seq<ValidationError>)
    requires !phase.Filter? && r < |RulesOf(pc, phase)|
    ensures forall e :: e in errs <==> IsParamError(e, phase, r) && ParamProblem(decode, pc, e)
  {
    var params := RulesOf(pc, phase)[r].params;
    errs := [];
    var left := params.Keys;
    while left != {}
      invariant left <= params.Keys
      invariant forall e :: e in errs <==> IsParamError(e, phase, r) && e.path !in left && ParamProblem(decode, pc, e)
      decreases left
    {
      var path :| path in left;
      var problems := CheckParam(decode, pc, phase, r, path);
      errs := errs + problems;
      left := left - {path};
    }
  }

  /** checkRules. */
  method CheckRules(decode: string -> Option<Json>, pc: PayloadConfig, phase: Phase) returns (errs: seq<ValidationError>)
    requires !phase.Filter?
    ensures forall e :: e in errs <==> IsPayloadError(e) && e.phase == phase && PayloadProblem(decode, pc, e)
  {
    errs := [];
    var r := 0;
    while r < |RulesOf(pc, phase)|
      invariant 0 <= r <= |RulesOf(pc, phase)|
      invariant forall e :: e in errs <==>
                  IsPayloadError(e) && e.phase == phase && e.r < r && PayloadProblem(decode, pc, e)
    {
      var clauses := CheckClauses(phase, r, RulesOf(pc, phase)[r].models);
      var params := CheckParams(decode, pc, phase, r);
      errs := errs + clauses + params;
      r := r + 1;
    }
  }

  method CheckFilterPaths(decode: string -> Option<Json>, pc: PayloadConfig, r: nat) returns (errs: seq<ValidationError>)
    requires r < |pc.filter|
    ensures forall e :: e in errs <==>
              IsPayloadError(e) && !IsClauseError(e) && e.phase == Filter && e.r == r && ParamProblem(decode, pc, e)
  {
    errs := [];
    var paths := pc.filter[r].params;
    var j := 0;
    while j < |paths|
      invariant 0 <= j <= |paths|
      invariant forall e :: e in errs <==>
                  && e.ModelFieldProtected? && e.phase == Filter && e.r == r
                  && e.path in paths[..j] && FirstPathSegment(e.path) == "model"
    {
      if FirstPathSegment(paths[j]) == "model" {
        errs := errs + [ModelFieldProtected(Filter, r, paths[j])];
      }
      assert paths[..j + 1] == paths[..j] + [paths[j]];
      j := j + 1;
    }
    assert paths[..j] == paths;
  }

  method CheckFilters(decode: string -> Option<Json>, pc: PayloadConfig) returns (errs: seq<ValidationError>)
    ensures forall e :: e in errs <==> IsPayloadError(e) && e.phase == Filter && PayloadProblem(decode, pc, e)
  {
    errs := [];
    var r := 0;
    while r < |pc.filter|
      invariant 0 <= r <= |pc.filter|
      invariant forall e :: e in errs <==>
                  IsPayloadError(e) && e.phase == Filter && e.r < r && PayloadProblem(decode, pc, e)
    {
      var clauses := CheckClauses(Filter, r, pc.filter[r].models);
      var paths := CheckFilterPaths(decode, pc, r);
      errs := errs + clauses + paths;
      r := r + 1;
    }
  }

  method ValidatePayload(decode: string -> Option<Json>, pc: PayloadConfig) returns (errs: seq<ValidationError>)
    ensures forall e :: e in errs <==> PayloadProblem(decode, pc, e)
  {
    var d := CheckRules(decode, pc, Default);
    var dr := CheckRules(decode, pc, DefaultRaw);
    var o := CheckRules(decode, pc, Override);
    var orr := CheckRules(decode, pc, OverrideRaw);
    var f := CheckFilters(decode, pc);
    errs := d + dr + o + orr + f;
  }

  /** Validate: it reports exactly the problems the config has. */
  method Validate(decode: string -> Option<Json>, cfg: Config) returns (errs: seq<ValidationError>)
    ensures forall e :: e in errs <==> Problem(decode, cfg, e)
    ensures errs == [] <==> Valid(decode, cfg)
  {
    var providers, ids := CheckProviders(cfg);
    var keys := CheckKeys(cfg, ids);
    var payload := ValidatePayload(decode, cfg.payload);
    errs := providers + keys + payload;
    if cfg.listen.None? || cfg.listen.value == "" {
      errs := errs + [ListenRequired];
    }
    if ManagementEnabled(cfg.management) && cfg.management.adminKey == "" {
      errs := errs + [AdminKeyRequired];
    }
    if errs != [] {
      assert errs[0] in errs;
    }
  }

  // ---- what the checks imply ----

  /** duplicate_internal_model never comes alone: one of the three checks it follows from has reported too. */
  lemma DuplicateInternalIsRedundant(cfg: Config, i: int, j: int)
    requires ModelProblem(cfg, DuplicateInternalModel(i, j))
    ensures exists e: ValidationError :: (e.DuplicateProvider? || e.DuplicateAliasA? || e.ProviderNameSlash?) &&
                        (ProviderProblem(cfg, e) || ModelProblem(cfg, e))
  {
    var i', j' :| HasID(cfg, i', j') && (i' < i || (i' == i && j' < j)) && IDAt(cfg, i', j') == IDAt(cfg, i, j);
    if '/' in cfg.providers[i].name {
      assert ProviderProblem(cfg, ProviderNameSlash(i));
    } else if '/' in cfg.providers[i'].name {
      assert ProviderProblem(cfg, ProviderNameSlash(i'));
    } else {
      InternalIDInjective(cfg.providers[i].name, ModelAt(cfg, i, j), cfg.providers[i'].name, ModelAt(cfg, i', j'));
      if i' < i {
        assert ProviderProblem(cfg, DuplicateProvider(i));
      } else {
        assert ModelProblem(cfg, DuplicateAliasA(i, j));
      }
    }
  }

  /** In a valid config every model has an id, no two share one, and parsing it gives back provider and alias. */
  lemma ValidIDs(decode: string -> Option<Json>, cfg: Config, i: int, j: int)
    requires Valid(decode, cfg) && IsModel(cfg, i, j)
    ensures HasID(cfg, i, j)
    ensures ParseInternalModelID(IDAt(cfg, i, j)) == Some((cfg.providers[i].name, EffectiveAliasA(ModelAt(cfg, i, j))))
    ensures forall i', j' :: IsModel(cfg, i', j') && IDAt(cfg, i', j') == IDAt(cfg, i, j) ==> i' == i && j' == j
  {
    var p, m := cfg.providers[i], ModelAt(cfg, i, j);
    assert !Problem(decode, cfg, ProviderNameRequired(i)) && !Problem(decode, cfg, ProviderNameSlash(i));
    assert !Problem(decode, cfg, ProviderModelRequired(i, j));
    ParseAfterBuild(p.name, m);
    forall i', j' | IsModel(cfg, i', j') && IDAt(cfg, i', j') == IDAt(cfg, i, j) ensures i' == i && j' == j {
      IDsDiffer(decode, cfg, i, j, i', j');
    }
  }

  lemma EveryModelHasID(decode: string -> Option<Json>, cfg: Config, i: int, j: int)
    requires Valid(decode, cfg) && IsModel(cfg, i, j)
    ensures HasID(cfg, i, j)
  {
    assert !Problem(decode, cfg, ProviderNameRequired(i));
    assert !Problem(decode, cfg, ProviderModelRequired(i, j));
  }

  lemma IDsDiffer(decode: string -> Option<Json>, cfg: Config, i: int, j: int, i': int, j': int)
    requires Valid(decode, cfg) && IsModel(cfg, i, j) && IsModel(cfg, i', j')
    ensures IDAt(cfg, i', j') == IDAt(cfg, i, j) ==> i' == i && j' == j
  {
    EveryModelHasID(decode, cfg, i, j);
    EveryModelHasID(decode, cfg, i', j');
    assert !Problem(decode, cfg, DuplicateInternalModel(i, j));
    assert !Problem(decode, cfg, DuplicateInternalModel(i', j'));
  }

  /** Providers of a valid config have names of their own. */
  lemma NamesDiffer(decode: string -> Option<Json>, cfg: Config, i: int, n: int)
    requires Valid(decode, cfg) && 0 <= i < |cfg.providers| && 0 <= n < |cfg.providers| && i != n
    ensures cfg.providers[i].name != cfg.providers[n].name
  {
    assert !Problem(decode, cfg, ProviderNameRequired(i));
    assert !Problem(decode, cfg, DuplicateProvider(i));
    assert !Problem(decode, cfg, DuplicateProvider(n));
  }
}
