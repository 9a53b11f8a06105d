/** internal/config: the configuration model (config.go), its derived names (helpers.go) and the expansion of
    secret placeholders (load.go). */
module Config {
  import opened Wrappers
  import opened Strings
  import opened JsonTree

  datatype ProviderModel = ProviderModel(model: string, aliasA: string)

  datatype Provider = Provider(
    name: string,
    protocol: string,  // the field "type"
    url: string,
    urls: map<string, string>,
    key: string,
    headers: map<string, string>,
    maxConcurrency: Option<int>,
    models: seq<ProviderModel>)

  datatype ClientModel = ClientModel(model: string, aliasB: string, priority: int)

  datatype ClientApiKey = ClientApiKey(
    name: string,
    key: string,
    enabled: Option<bool>,
    allowedProtocols: seq<string>,
    models: seq<ClientModel>)

  datatype PayloadModelRule = PayloadModelRule(name: string, protocol: string, fromProtocol: string)

  datatype PayloadRule = PayloadRule(models: seq<PayloadModelRule>, params: map<string, Json>)

  datatype PayloadFilterRule = PayloadFilterRule(models: seq<PayloadModelRule>, params: seq<string>)

  datatype PayloadConfig = PayloadConfig(
    defaults: seq<PayloadRule>,
    defaultRaw: seq<PayloadRule>,
    overrides: seq<PayloadRule>,
    overrideRaw: seq<PayloadRule>,
    filter: seq<PayloadFilterRule>)

  datatype Management = Management(enabled: Option<bool>, adminKey: string)

  /** The settings the proxy loop reads. */
  datatype Proxy = Proxy(
    maxFailures: int,
    failureResetSeconds: int,
    rewriteModel: bool,
    usageEnabled: bool,
    retryCodes: seq<int>)

  datatype Config = Config(
    listen: Option<string>,
    proxy: Proxy,
    management: Management,
    archiveDir: string,
    payload: PayloadConfig,
    providers: seq<Provider>,
    apiKeys: seq<ClientApiKey>)

  predicate IsProtocol(p: string) {
    p == "anthropic" || p == "openai_completion" || p == "codex"
  }

  /** The protocol and base URL a provider serves a client protocol with. */
  function UpstreamFor(p: Provider, clientProtocol: string): (string, string) {
    if clientProtocol in p.urls && p.urls[clientProtocol] != "" then (clientProtocol, p.urls[clientProtocol])
    else if p.protocol in p.urls && p.urls[p.protocol] != "" then (p.protocol, p.urls[p.protocol])
    else (p.protocol, p.url)
  }

  function ConcurrencyLimit(p: Provider): int {
    if p.maxConcurrency.Some? && p.maxConcurrency.value > 0 then p.maxConcurrency.value else 0
  }

  function KeyEnabled(k: ClientApiKey): bool {
    if k.enabled.Some? then k.enabled.value else true
  }

  function ManagementEnabled(m: Management): bool {
    if m.enabled.Some? then m.enabled.value else true
  }

  function EffectiveAliasA(pm: ProviderModel): string {
    if pm.aliasA != "" then pm.aliasA else pm.model
  }

  function ModelInternalID(providerName: string, pm: ProviderModel): string {
    providerName + "/" + EffectiveAliasA(pm)
  }

  /** The id cut at its first slash; both sides must be there. */
  function ParseInternalModelID(id: string): Option<(string, string)> {
    var i := Index(id, "/");
    if i <= 0 || i == |id| - 1 then None else Some((id[..i], id[i + 1..]))
  }

  lemma SlashAt(s: string, i: int)
    ensures OccursAt(s, "/", i) <==> 0 <= i < |s| && s[i] == '/'
  {
    if 0 <= i < |s| {
      assert s[i..i + 1] == [s[i]];
    }
  }

  lemma FirstSlash(name: string, rest: string)
    requires '/' !in name
    ensures Index(name + "/" + rest, "/") == |name|
  {
    var id := name + "/" + rest;
    forall i ensures OccursAt(id, "/", i) <==> 0 <= i < |id| && id[i] == '/' {
      SlashAt(id, i);
    }
    assert forall i :: 0 <= i < |name| ==> id[i] == name[i];
    assert id[|name|] == '/';
    assert OccursAt(id, "/", |name|);
  }

  /** Parsing an internal id gives back the provider and the alias it was made of. */
  lemma ParseAfterBuild(name: string, pm: ProviderModel)
    requires name != "" && '/' !in name && EffectiveAliasA(pm) != ""
    ensures ParseInternalModelID(ModelInternalID(name, pm)) == Some((name, EffectiveAliasA(pm)))
  {
    FirstSlash(name, EffectiveAliasA(pm));
    var id := ModelInternalID(name, pm);
    assert id[..|name|] == name && id[|name| + 1..] == EffectiveAliasA(pm);
  }

  /** Slash-free names make internal ids unambiguous, even when aliases hold slashes. */
  lemma InternalIDInjective(n1: string, m1: ProviderModel, n2: string, m2: ProviderModel)
    requires '/' !in n1 && '/' !in n2
    requires ModelInternalID(n1, m1) == ModelInternalID(n2, m2)
    ensures n1 == n2 && EffectiveAliasA(m1) == EffectiveAliasA(m2)
  {
    FirstSlash(n1, EffectiveAliasA(m1));
    FirstSlash(n2, EffectiveAliasA(m2));
    var id1, id2 := ModelInternalID(n1, m1), ModelInternalID(n2, m2);
    assert n1 == id1[..|n1|] == id2[..|n2|] == n2;
    assert EffectiveAliasA(m1) == id1[|n1| + 1..] && EffectiveAliasA(m2) == id2[|n2| + 1..];
  }

  // ---- secret placeholders ----

  function ExpandProvider(env: string -> string, p: Provider): Provider {
    p.(key := env(p.key), headers := map h | h in p.headers :: env(p.headers[h]))
  }

  function ExpandKey(env: string -> string, k: ClientApiKey): ClientApiKey {
    k.(key := env(k.key))
  }

  /** The key and every header are replaced, and nothing else. */
  predicate IsExpanded(env: string -> string, p: Provider, q: Provider) {
    && q.key == env(p.key)
    && q.headers.Keys == p.headers.Keys && (forall h :: h in p.headers ==> q.headers[h] == env(p.headers[h]))
    && q.(key := p.key, headers := p.headers) == p
  }

  /** The runtime form of a raw config: `env` replaces the placeholders of the secret-bearing fields. */
  function Expand(env: string -> string, raw: Config): (cfg: Config)
    ensures |cfg.providers| == |raw.providers| && |cfg.apiKeys| == |raw.apiKeys|
    ensures forall i :: 0 <= i < |raw.providers| ==> IsExpanded(env, raw.providers[i], cfg.providers[i])
    ensures forall i :: 0 <= i < |raw.apiKeys| ==>
              cfg.apiKeys[i].key == env(raw.apiKeys[i].key) && cfg.apiKeys[i].(key := raw.apiKeys[i].key) == raw.apiKeys[i]
    ensures cfg.archiveDir == env(raw.archiveDir) && cfg.management.adminKey == env(raw.management.adminKey)
    ensures cfg.management.enabled == raw.management.enabled
    ensures cfg.listen == raw.listen && cfg.proxy == raw.proxy && cfg.payload == raw.payload
  {
    raw.(
      management := raw.management.(adminKey := env(raw.management.adminKey)),
      archiveDir := env(raw.archiveDir),
      providers := seq(|raw.providers|, i requires 0 <= i < |raw.providers| => ExpandProvider(env, raw.providers[i])),
      apiKeys := seq(|raw.apiKeys|, i requires 0 <= i < |raw.apiKeys| => ExpandKey(env, raw.apiKeys[i])))
  }
}
