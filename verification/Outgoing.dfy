/** What goes out to the providers: internal/pipeline/pipeline.go:203-223, the rename, the translation and the payload
    rules together. */
module Outgoing {
  import opened Wrappers
  import opened Strings
  import opened Lists
  import opened Norm
  import opened Turns
  import opened Translation
  import JsonTree
  import ModelRewrite
  import Config
  import Validate
  import Payload
  import PayloadLaws
  import Anthropic
  import OpenAI
  import Codex
  import Streams
  import TextRelay
  import Indexes
  import Routing
  import Failover
  import Pipeline

  /** How a body's text is read and written: the fields each protocol's codec looks up, and the tree the payload rules
      work on, with the string gjson shows for a value of it. */
  datatype Reader = Reader(
    json: OpenAI.Json,
    read: (Streams.Protocol, string) -> Wire,
    write: Wire -> string,
    tree: string -> JsonTree.Json,
    show: JsonTree.Json -> string)

  /** The rules as the engine runs them: what matches a model and a client protocol, and how raw params decode. */
  datatype Rules = Rules(
    pc: Config.PayloadConfig,
    decode: string -> Option<JsonTree.Json>,
    matches: (Indexes.ResolvedModel, string) -> (seq<Config.PayloadModelRule>, JsonTree.Json) -> bool)

  /** The body asks for this model. */
  predicate AsksFor(json: ModelRewrite.Json, body: string, model: string) {
    json.has(body, "model") && json.value(body, "model") == model
  }

  function WithModel(w: Wire, model: string): Wire {
    match w
    case A(a) => A(a.(model := model))
    case O(o) => O(o.(model := model))
    case C(c) => C(c.(model := model))
  }

  predicate IsOf(p: Streams.Protocol, w: Wire) {
    match p
    case AnthropicProtocol => w.A?
    case OpenAIProtocol => w.O?
    case CodexProtocol => w.C?
  }

  /** A body that did not marshal. */
  predicate IsNothing(w: Wire) {
    match w
    case A(a) => a == Anthropic.NO_BODY
    case O(o) => o == OpenAI.NO_BODY
    case C(c) => c == Codex.NO_BODY
  }

  /** The laws of the JSON library on whole bodies. Setting the model sets it and nothing else; raw JSON in a JSON body
      is JSON; a body written asks for the model it was built with; one that did not marshal asks for none. */
  ghost predicate Lawful(tools: Pipeline.Tools, r: Reader) {
    && (forall b, m :: tools.json.valid(b) && tools.json.has(b, "model") ==> Sets(tools, r, b, m))
    && (forall p, b :: tools.json.valid(b) ==> ReadsRaw(r, p, b))
    && (forall w :: SettingsOf(w).model != "" ==> AsksFor(tools.json, r.write(w), SettingsOf(w).model))
    && (forall w :: IsNothing(w) ==> !tools.json.has(r.write(w), "model"))
    && (forall b :: ModelIn(tools, r, b))
  }

  ghost predicate Sets(tools: Pipeline.Tools, r: Reader, b: string, m: string) {
    var c := tools.setModel(b, m);
    tools.json.valid(c) && AsksFor(tools.json, c, m) && forall p :: r.read(p, c) == WithModel(r.read(p, b), m)
  }

  predicate ReadsRaw(r: Reader, p: Streams.Protocol, b: string) {
    && IsOf(p, r.read(p, b))
    && forall t :: t in SettingsOf(r.read(p, b)).tools ==> r.json.syntax.valid(JsonRaw(t.schema))
  }

  /** The model field of a text is that of its tree. */
  predicate ModelIn(tools: Pipeline.Tools, r: Reader, b: string) {
    var field := Payload.Get(r.tree(b), ["model"]);
    && tools.json.has(b, "model") == field.Some?
    && (field.Some? ==> tools.json.value(b, "model") == r.show(field.value))
  }

  /** The registry holds the translations of internal/translate/pairs.go. */
  ghost predicate Registered(tools: Pipeline.Tools, r: Reader) {
    forall k :: k in tools.translators ==>
      && k.0 in TextRelay.PROTOCOLS && k.1 in TextRelay.PROTOCOLS && k.0 != k.1
      && forall b :: tools.translators[k].request(b) ==
                     Some(r.write(Translated(r.json, TextRelay.PROTOCOLS[k.1], r.read(TextRelay.PROTOCOLS[k.0], b))))
  }

  ghost predicate AreOrders(pc: Config.PayloadConfig, orders: seq<seq<seq<string>>>) {
    && |orders| == 4
    && Payload.AreOrders(pc.defaults, orders[0]) && Payload.AreOrders(pc.defaultRaw, orders[1])
    && Payload.AreOrders(pc.overrides, orders[2]) && Payload.AreOrders(pc.overrideRaw, orders[3])
  }

  /** What the rules may make of a body, walking their maps in some order. */
  ghost predicate Comes(rules: Rules, model: Indexes.ResolvedModel, protocol: string, j: JsonTree.Json, out: JsonTree.Json) {
    exists orders :: AreOrders(rules.pc, orders) &&
      out == Payload.Applied(rules.matches(model, protocol), rules.decode, rules.pc, orders, j)
  }

  /** The engine runs these rules, and they have been accepted. */
  ghost predicate RunsRules(tools: Pipeline.Tools, r: Reader, rules: Rules) {
    && (forall e :: !Validate.PayloadProblem(rules.decode, rules.pc, e))
    && forall b, model, protocol ::
         Comes(rules, model, protocol, r.tree(b), r.tree(tools.payload(b, model, protocol)))
  }

  /** Accepted rules leave the model a body asks for alone. */
  lemma RulesKeepModel(
      tools: Pipeline.Tools, r: Reader, rules: Rules, b: string, model: Indexes.ResolvedModel, protocol: string)
    requires Lawful(tools, r) && RunsRules(tools, r, rules)
    ensures
      var out := tools.payload(b, model, protocol);
      && tools.json.has(out, "model") == tools.json.has(b, "model")
      && (tools.json.has(b, "model") ==> tools.json.value(out, "model") == tools.json.value(b, "model"))
  {
    var out := tools.payload(b, model, protocol);
    assert Comes(rules, model, protocol, r.tree(b), r.tree(out));
    var orders :| AreOrders(rules.pc, orders) &&
      r.tree(out) == Payload.Applied(rules.matches(model, protocol), rules.decode, rules.pc, orders, r.tree(b));
    PayloadLaws.ApplyKeepsModel(rules.matches(model, protocol), rules.decode, rules.pc, orders, r.tree(b));
    assert ModelIn(tools, r, b) && ModelIn(tools, r, out);
  }

  // ---- one body ----

  /** The client asks for a model, in JSON. */
  predicate Asks(e: Pipeline.Env) {
    e.tools.json.valid(e.req.body) && e.tools.json.has(e.req.body, "model")
  }

  /** What is handed to the rules: the client's own body under the upstream's model name, as it is or translated. */
  ghost predicate Prepared(e: Pipeline.Env, r: Reader, model: Indexes.ResolvedModel, pre: string) {
    if model.protocol == e.req.protocol then pre == e.tools.setModel(e.req.body, model.upstreamModel)
    else
      && e.req.protocol in TextRelay.PROTOCOLS && model.protocol in TextRelay.PROTOCOLS
      && pre == r.write(Translated(r.json, TextRelay.PROTOCOLS[model.protocol],
                                   WithModel(r.read(TextRelay.PROTOCOLS[e.req.protocol], e.req.body), model.upstreamModel)))
  }

  /** All raw JSON the client's body hands over to the upstream's protocol is JSON. */
  ghost predicate Transfers(e: Pipeline.Env, r: Reader, model: Indexes.ResolvedModel) {
    model.protocol == e.req.protocol ||
    (e.req.protocol in TextRelay.PROTOCOLS && model.protocol in TextRelay.PROTOCOLS &&
     RawIsJSON(r.json, TextRelay.PROTOCOLS[model.protocol], r.read(TextRelay.PROTOCOLS[e.req.protocol], e.req.body)))
  }

  /** What one sent body is: the rules applied to the prepared body; it asks for the upstream's model exactly when all
      raw JSON transfers, and for no model at all otherwise. */
  ghost predicate WellSent(e: Pipeline.Env, r: Reader, rules: Rules, model: Indexes.ResolvedModel, body: string) {
    && (exists pre :: Prepared(e, r, model, pre) && body == e.tools.payload(pre, model, e.req.protocol)
                      && Comes(rules, model, e.req.protocol, r.tree(pre), r.tree(body)))
    && (Transfers(e, r, model) ==> AsksFor(e.tools.json, body, model.upstreamModel))
    && (!Transfers(e, r, model) ==> !e.tools.json.has(body, "model"))
  }

  lemma SameTransfer(json: OpenAI.Json, to: Streams.Protocol, w: Wire, m: string)
    ensures RawIsJSON(json, to, WithModel(w, m)) <==> RawIsJSON(json, to, w)
  {
    assert SettingsOf(WithModel(w, m)).tools == SettingsOf(w).tools;
    assert Said(json, WithModel(w, m)) == Said(json, w);
  }

  /** The translated body asks for the model it was given, or is nothing. */
  lemma TranslatedAsks(json: OpenAI.Json, to: Streams.Protocol, w: Wire)
    requires !(w.A? && to.AnthropicProtocol?)
    ensures
      if RawIsJSON(json, to, w) then SettingsOf(Translated(json, to, w)).model == SettingsOf(w).model
      else IsNothing(Translated(json, to, w))
  {
    MarshalsWhenJSON(json, to, w);
    if RawIsJSON(json, to, w) {
      TranslationKeepsSettings(json, to, w);
    }
  }

  /** The model, provider and protocol a candidate's route stands for. */
  lemma RouteIs(e: Pipeline.Env, cand: Indexes.Candidate)
    requires Pipeline.RouteOf(e, cand).Some?
    ensures
      var route := Pipeline.RouteOf(e, cand).value;
      && cand.internalID in e.snap.idx.models
      && route.model == e.snap.idx.models[cand.internalID].(protocol := route.provider.protocol)
      && (route.translator.None? <==> route.provider.protocol == e.req.protocol)
      && (route.translator.Some? ==>
            && (e.req.protocol, route.provider.protocol) in e.tools.translators
            && route.translator.value == e.tools.translators[(e.req.protocol, route.provider.protocol)])
  {
  }

  lemma TranslatedRoute(
      e: Pipeline.Env, r: Reader, rules: Rules, cand: Indexes.Candidate, pre: string)
    requires Lawful(e.tools, r) && Registered(e.tools, r) && Asks(e)
    requires Pipeline.RouteOf(e, cand).Some? && Pipeline.RouteOf(e, cand).value.translator.Some?
    requires e.snap.idx.models[cand.internalID].upstreamModel != ""
    requires
      var route := Pipeline.RouteOf(e, cand).value;
      Some(pre) == route.translator.value.request(e.tools.setModel(e.req.body, route.model.upstreamModel))
    ensures
      var model := Pipeline.RouteOf(e, cand).value.model;
      && Prepared(e, r, model, pre)
      && (if Transfers(e, r, model) then AsksFor(e.tools.json, pre, model.upstreamModel)
          else !e.tools.json.has(pre, "model"))
  {
    RouteIs(e, cand);
    var model := Pipeline.RouteOf(e, cand).value.model;
    var key := (e.req.protocol, model.protocol);
    assert key in e.tools.translators;
    var from, to := TextRelay.PROTOCOLS[key.0], TextRelay.PROTOCOLS[key.1];
    var w := r.read(from, e.req.body);
    assert Sets(e.tools, r, e.req.body, model.upstreamModel);
    assert ReadsRaw(r, from, e.req.body);
    SameTransfer(r.json, to, w, model.upstreamModel);
    TranslatedAsks(r.json, to, WithModel(w, model.upstreamModel));
  }

  lemma BodyIsWellSent(e: Pipeline.Env, r: Reader, rules: Rules, cand: Indexes.Candidate)
    requires Lawful(e.tools, r) && Registered(e.tools, r) && RunsRules(e.tools, r, rules) && Asks(e)
    requires Pipeline.RouteOf(e, cand).Some?
    requires e.snap.idx.models[cand.internalID].upstreamModel != ""
    ensures
      var route := Pipeline.RouteOf(e, cand).value;
      Pipeline.Outbound(e, route).Some? && WellSent(e, r, rules, route.model, Pipeline.Outbound(e, route).value)
  {
    RouteIs(e, cand);
    var route := Pipeline.RouteOf(e, cand).value;
    var renamed := e.tools.setModel(e.req.body, route.model.upstreamModel);
    assert Sets(e.tools, r, e.req.body, route.model.upstreamModel);
    var pre := renamed;
    if route.translator.Some? {
      assert (e.req.protocol, route.model.protocol) in e.tools.translators;
      pre := route.translator.value.request(renamed).value;
      TranslatedRoute(e, r, rules, cand, pre);
    }
    RulesKeepModel(e.tools, r, rules, pre, route.model, e.req.protocol);
    assert Comes(rules, route.model, e.req.protocol, r.tree(pre),
                 r.tree(e.tools.payload(pre, route.model, e.req.protocol)));
    assert Prepared(e, r, route.model, pre);
  }

  // ---- where it goes ----

  /** The endpoint a provider is called at for a client: in the client's own protocol wherever it is configured, else in
      the provider's, at that protocol's URL if there is one. */
  predicate Endpoint(p: Indexes.ProviderEntry, protocol: string, called: Indexes.ProviderEntry) {
    && called.(protocol := p.protocol, url := p.url) == p
    && var native := protocol in p.urls && p.urls[protocol] != "";
       var own := p.protocol in p.urls && p.urls[p.protocol] != "";
       && called.protocol == (if native then protocol else p.protocol)
       && (native || own ==> called.protocol in p.urls && called.url == p.urls[called.protocol])
       && (!native && !own ==> called.url == p.url)
  }

  /** What is sent for a candidate goes to its own model's provider, and is well sent. */
  ghost predicate SentFor(
      e: Pipeline.Env, r: Reader, rules: Rules, cand: Indexes.Candidate, x: Pipeline.Sent)
  {
    && cand.internalID in e.snap.idx.models
    && var model := e.snap.idx.models[cand.internalID];
       && model.providerName in e.snap.idx.providers
       && Endpoint(e.snap.idx.providers[model.providerName], e.req.protocol, x.provider)
       && x.model == model.(protocol := x.provider.protocol)
       && WellSent(e, r, rules, x.model, x.body)
  }

  lemma RouteEndpoint(e: Pipeline.Env, cand: Indexes.Candidate)
    requires Pipeline.RouteOf(e, cand).Some?
    ensures
      && cand.internalID in e.snap.idx.models
      && var model := e.snap.idx.models[cand.internalID];
         && model.providerName in e.snap.idx.providers
         && Endpoint(e.snap.idx.providers[model.providerName], e.req.protocol, Pipeline.RouteOf(e, cand).value.provider)
  {
  }

  /** Every model of the snapshot has an upstream name. */
  predicate Named(e: Pipeline.Env) {
    forall id :: id in e.snap.idx.models ==> e.snap.idx.models[id].upstreamModel != ""
  }

  /** So it is with the indexes of any accepted configuration. */
  lemma ModelsAreNamed(decode: string -> Option<JsonTree.Json>, cfg: Config.Config, e: Pipeline.Env)
    requires Validate.Valid(decode, cfg) && Indexes.IndexOf(e.snap.idx, cfg)
    ensures Named(e)
  {
    forall id | id in e.snap.idx.models ensures e.snap.idx.models[id].upstreamModel != "" {
      var i, j := Routing.DeclaredAt(cfg, id);
      Validate.ValidIDs(decode, cfg, i, j);
    }
  }

  ghost predicate Setting(e: Pipeline.Env, r: Reader, rules: Rules) {
    Lawful(e.tools, r) && Registered(e.tools, r) && RunsRules(e.tools, r, rules) && Asks(e) && Named(e)
  }

  /** A candidate with a route has a body, and it is sent as it should be. */
  lemma RouteSends(e: Pipeline.Env, r: Reader, rules: Rules, cand: Indexes.Candidate)
    requires Setting(e, r, rules) && Pipeline.RouteOf(e, cand).Some?
    ensures
      var route := Pipeline.RouteOf(e, cand).value;
      && Pipeline.Outbound(e, route).Some?
      && SentFor(e, r, rules, cand, Pipeline.Posted(route, Pipeline.Outbound(e, route).value))
  {
    RouteIs(e, cand);
    RouteEndpoint(e, cand);
    BodyIsWellSent(e, r, rules, cand);
  }

  /** An attempt is on the candidate's route, and posts its body. */
  lemma AttemptPosts(
      e: Pipeline.Env, inFlight: map<string, int>, before: string, cand: Indexes.Candidate, w: Pipeline.Weather,
      v: Pipeline.Verdict)
    requires v == Pipeline.JudgeRoute(e, inFlight, before, cand, w)
    ensures !Pipeline.Attempted(v) ==> Pipeline.SentOf(e, v) == []
    ensures Pipeline.Attempted(v) ==>
              && Pipeline.RouteOf(e, cand) == Some(v.info.route) && Pipeline.Outbound(e, v.info.route).Some?
              && Pipeline.SentOf(e, v) == [Pipeline.Posted(v.info.route, Pipeline.Outbound(e, v.info.route).value)]
  {
  }

  lemma VerdictSends(
      e: Pipeline.Env, r: Reader, rules: Rules, cand: Indexes.Candidate, w: Pipeline.Weather, v: Pipeline.Verdict)
    requires Setting(e, r, rules) && Met(e, cand, w, v)
    ensures |Pipeline.SentOf(e, v)| == if Pipeline.Attempted(v) then 1 else 0
    ensures forall x :: x in Pipeline.SentOf(e, v) ==> SentFor(e, r, rules, cand, x)
  {
    if !v.Skipped? {
      var inFlight, before :| v == Pipeline.JudgeRoute(e, inFlight, before, cand, w);
      AttemptPosts(e, inFlight, before, cand, w, v);
      if Pipeline.Attempted(v) {
        RouteSends(e, r, rules, cand);
      }
    }
  }

  // ---- a whole request, and all of them ----

  /** Each thing sent in a request is sent for one of its candidates. */
  ghost predicate AllSentFor(
      e: Pipeline.Env, r: Reader, rules: Rules, cands: seq<Indexes.Candidate>, sent: seq<Pipeline.Sent>)
  {
    forall x :: x in sent ==> exists j :: 0 <= j < |cands| && SentFor(e, r, rules, cands[j], x)
  }

  /** The attempts among some verdicts. */
  function Attempts(trail: seq<Pipeline.Verdict>): nat {
    if trail == [] then 0 else Attempts(trail[..|trail| - 1]) + if Pipeline.Attempted(trail[|trail| - 1]) then 1 else 0
  }

  lemma {:induction false} TrailSends(
      e: Pipeline.Env, r: Reader, rules: Rules, cands: seq<Indexes.Candidate>, ws: seq<Pipeline.Weather>,
      trail: seq<Pipeline.Verdict>)
    requires Setting(e, r, rules) && |trail| <= |cands| == |ws|
    requires forall j :: 0 <= j < |trail| ==> Met(e, cands[j], ws[j], trail[j])
    ensures |Pipeline.SentAll(e, trail)| == Attempts(trail)
    ensures AllSentFor(e, r, rules, cands, Pipeline.SentAll(e, trail))
  {
    if trail != [] {
      var n := |trail| - 1;
      TrailSends(e, r, rules, cands, ws, trail[..n]);
      assert Met(e, cands[n], ws[n], trail[n]);
      VerdictSends(e, r, rules, cands[n], ws[n], trail[n]);
    }
  }

  /** A verdict a candidate has met in some state of the slots. */
  ghost predicate Met(e: Pipeline.Env, cand: Indexes.Candidate, w: Pipeline.Weather, v: Pipeline.Verdict) {
    v.Skipped? || exists inFlight, before :: v == Pipeline.JudgeRoute(e, inFlight, before, cand, w)
  }

  /** Over a whole request, failed attempts and all: one body goes out per attempt, to the provider of a candidate of
      its own, made from the client's body alone and asking for that candidate's upstream model. */
  lemma RequestSendsItsModels(
      e: Pipeline.Env, r: Reader, rules: Rules, history: seq<Failover.Event>, inFlight: map<string, int>,
      cands: seq<Indexes.Candidate>, ws: seq<Pipeline.Weather>)
    requires Setting(e, r, rules) && |ws| == |cands|
    ensures
      var trail := Pipeline.Serve(e, history, inFlight, "", cands, ws);
      && |Pipeline.SentAll(e, trail)| == Attempts(trail)
      && AllSentFor(e, r, rules, cands, Pipeline.SentAll(e, trail))
  {
    var trail := Pipeline.Serve(e, history, inFlight, "", cands, ws);
    Pipeline.TriedInOrder(e, history, inFlight, "", cands, ws);
    forall j | 0 <= j < |trail| ensures Met(e, cands[j], ws[j], trail[j]) {
    }
    TrailSends(e, r, rules, cands, ws, trail);
  }
}
