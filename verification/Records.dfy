/** What is kept of an attempt, told from what was sent and what came back: internal/pipeline/pipeline.go:228-300 and
    its archiveRequest and recordUsage, over whole requests. */
module Records {
  import opened Wrappers
  import opened Lists
  import ModelRewrite
  import Attempt
  import Failover
  import Usage
  import CallLog
  import Archive
  import Indexes
  import Pipeline

  // ---- how an attempt ends ----

  /** The upstream's answer goes unused: there is none, its status is one to retry on, or no byte of it is for the
      client. */
  predicate Unused(e: Pipeline.Env, u: Attempt.Upstream) {
    || u.CallFailed?
    || u.status in e.snap.proxy.retryCodes
    || (if e.req.isStream then u.status < 400 && Attempt.Consumed(u.body, u.ending) == "" else !u.ending.Eof?)
  }

  /** The upstream's answer breaks off. */
  predicate Broken(e: Pipeline.Env, u: Attempt.Upstream) {
    Unused(e, u) || (e.req.isStream && u.status < 400 && !u.ending.Eof?)
  }

  /** The upstream has answered, so its failures before are forgotten. */
  predicate Recovers(e: Pipeline.Env, u: Attempt.Upstream) {
    !Broken(e, u) && (e.req.isStream || 200 <= u.status < 300)
  }

  predicate StatusIs(e: Pipeline.Env, u: Attempt.Upstream, status: int) {
    status == if u.Responded? && (e.req.isStream || u.ending.Eof?) then u.status else 0
  }

  predicate ReasonIs(e: Pipeline.Env, u: Attempt.Upstream, reason: string) {
    if u.CallFailed? then reason == u.msg
    else if !e.req.isStream && !u.ending.Eof? then
      reason == if u.ending.ReadError? then u.ending.msg else "context ended"
    else if u.status in e.snap.proxy.retryCodes || u.status >= 400 then reason == e.tools.explain(u.status, u.body)
    else
      match u.ending
      case Eof => reason == ""
      case ReadError(msg) => reason == msg
      case IdleTimeout => reason == "stream idle timeout"
      case Disconnected => reason == "client disconnected"
  }

  // ---- token counts ----

  datatype Miner = Miner(tools: Pipeline.Tools, protocol: string)

  /** The counts one line of a stream reports. */
  function ReportOf(m: Miner, line: string): seq<Usage.Counts> {
    var payload := Attempt.PayloadOf(line);
    if payload.None? || !m.tools.json.valid(payload.value) then []
    else
      var mined := m.tools.mineEvent(m.protocol, payload.value);
      if mined.Some? then [mined.value] else []
  }

  /** All that a stream reports, in order. */
  function Reports(m: Miner, text: string): seq<Usage.Counts> {
    FlatMap(ReportOf, m, Attempt.Lines(text))
  }

  /** The parts as merged from the reports; the total the largest reported, else derived from the parts. */
  ghost predicate TotalsUp(protocol: string, cs: seq<Usage.Counts>, counts: Usage.Counts) {
    && Attempt.IsLastPositive(Attempt.Inputs(cs), 0, counts.input)
    && Attempt.IsLastPositive(Attempt.CacheReads(cs), 0, counts.cacheRead)
    && Attempt.IsLastPositive(Attempt.CacheCreations(cs), 0, counts.cacheCreation)
    && Attempt.IsLargest(Attempt.Outputs(cs), 0, counts.output)
    && Attempt.IsLargest(Attempt.Cacheds(cs), 0, counts.cached)
    && Attempt.IsLargest(Attempt.Reasonings(cs), 0, counts.reasoning)
    && (if exists i :: 0 <= i < |cs| && cs[i].total > 0 then Attempt.IsLargest(Attempt.Totals(cs), 0, counts.total)
        else counts.total == DerivedTotal(protocol, counts))
  }

  function DerivedTotal(protocol: string, c: Usage.Counts): int {
    if protocol == "anthropic" then c.input + c.output + c.cacheRead + c.cacheCreation else c.input + c.output
  }

  /** The counts of an attempt: of a relayed stream what its events report; of a whole body what it reports, its total
      derived if it has none; nothing otherwise. */
  ghost predicate CountsAre(e: Pipeline.Env, protocol: string, u: Attempt.Upstream, counts: Usage.Counts) {
    if e.req.isStream then
      if u.CallFailed? || u.status in e.snap.proxy.retryCodes || u.status >= 400 then counts == Usage.NO_COUNTS
      else TotalsUp(protocol, Reports(Miner(e.tools, protocol), Attempt.Consumed(u.body, u.ending)), counts)
    else
      var mined := if u.Responded? && u.ending.Eof? then e.tools.mineBody(protocol, u.body) else None;
      if mined.None? then counts == Usage.NO_COUNTS
      else counts == mined.value.(total := if mined.value.total > 0 then mined.value.total
                                           else DerivedTotal(protocol, mined.value))
  }

  /** Neither an empty payload nor the stream's closing mark is JSON. */
  predicate PlainMarks(json: ModelRewrite.Json) {
    !json.valid("") && !json.valid("[DONE]")
  }

  lemma {:induction false} ReportsAreMined(e: Pipeline.Env, route: Pipeline.Route, lines: seq<string>)
    requires PlainMarks(e.tools.json)
    ensures Attempt.MinedCounts(Pipeline.JobOf(e, route), lines) ==
            FlatMap(ReportOf, Miner(e.tools, route.model.protocol), lines)
  {
    if lines != [] {
      ReportsAreMined(e, route, lines[1..]);
    }
  }

  lemma NoReport(protocol: string)
    ensures Attempt.Finalized(Usage.NO_COUNTS, protocol) == Usage.NO_COUNTS
  {
  }

  lemma RelayCountsAre(e: Pipeline.Env, route: Pipeline.Route, text: string, before: string)
    requires PlainMarks(e.tools.json)
    ensures
      var acc := Attempt.FlowLines(Pipeline.JobOf(e, route), Attempt.Lines(text), Attempt.Start(before)).acc;
      TotalsUp(route.model.protocol, Reports(Miner(e.tools, route.model.protocol), text),
               Attempt.Finalized(acc, route.model.protocol))
  {
    ReportsAreMined(e, route, Attempt.Lines(text));
    Attempt.StreamTotal(Pipeline.JobOf(e, route), Attempt.Lines(text), before, route.model.protocol);
  }

  lemma NothingRelayed(e: Pipeline.Env, route: Pipeline.Route, before: string)
    ensures Attempt.FlowLines(Pipeline.JobOf(e, route), Attempt.Lines(""), Attempt.Start(before)).acc == Usage.NO_COUNTS
  {
  }

  lemma StreamCountsAre(e: Pipeline.Env, route: Pipeline.Route, u: Attempt.Upstream, before: string)
    requires e.req.isStream && PlainMarks(e.tools.json)
    ensures
      var v := Pipeline.StreamVerdict(e, route, u, before);
      CountsAre(e, route.model.protocol, u, v.info.counts)
  {
    NoReport(route.model.protocol);
    if Attempt.Relays(Pipeline.JobOf(e, route), u) {
      RelayCountsAre(e, route, Attempt.Consumed(u.body, u.ending), before);
      NothingRelayed(e, route, before);
    }
  }

  // ---- the records of one attempt ----

  /** Everything that is told of an attempt on a model, from the upstream's answer. */
  ghost predicate InfoTells(e: Pipeline.Env, protocol: string, u: Attempt.Upstream, info: Pipeline.Info) {
    && StatusIs(e, u, info.status)
    && ReasonIs(e, u, info.reason)
    && CountsAre(e, protocol, u, info.counts)
    && (info.failed <==> Broken(e, u))
  }

  /** One attempt: nothing reaches the client exactly when the answer goes unused. */
  lemma VerdictTells(e: Pipeline.Env, route: Pipeline.Route, u: Attempt.Upstream, before: string)
    requires PlainMarks(e.tools.json)
    ensures
      var v := Pipeline.AttemptVerdict(e, route, u, before);
      && Pipeline.Attempted(v) && v.info.route == route && InfoTells(e, route.model.protocol, u, v.info)
      && (v.Failed? <==> Unused(e, u))
      && (v.Served? ==> (v.succeeded <==> Recovers(e, u)))
  {
    NoReport(route.model.protocol);
    if e.req.isStream {
      StreamCountsAre(e, route, u, before);
    }
  }

  /** The usage row of what was sent. */
  ghost predicate UsageTells(e: Pipeline.Env, x: Pipeline.Sent, u: Attempt.Upstream, a: Usage.Attempt) {
    && a.key.provider == x.model.providerName && a.key.internalModelID == x.model.internalID
    && a.key.aliasA == x.model.aliasA && a.key.upstreamModel == x.model.upstreamModel
    && a.key.sourceProtocol == e.req.protocol
    && a.key.protocol == x.provider.protocol && a.key.targetProtocol == x.provider.protocol
    && StatusIs(e, u, a.key.httpStatus)
    && CountsAre(e, x.provider.protocol, u, a.counts)
    && (a.failed <==> Broken(e, u))
  }

  function CountsOf(t: CallLog.Tokens): Usage.Counts {
    Usage.Counts(t.input, t.output, t.cacheRead, t.cacheCreation, t.cached, t.reasoning, t.total)
  }

  /** The call log's entry of what was sent. */
  ghost predicate LogTells(
      e: Pipeline.Env, x: Pipeline.Sent, u: Attempt.Upstream, latency: int, l: CallLog.Entry)
  {
    && l.requestID == e.req.id && l.timestamp == e.req.start && l.endpoint == e.req.endpoint
    && l.apiKey == e.req.apiKey && l.alias == e.req.alias && l.sourceProtocol == e.req.protocol
    && l.provider == x.model.providerName && l.protocol == x.provider.protocol
    && l.model == x.model.upstreamModel && l.internalModel == x.model.internalID
    && StatusIs(e, u, l.httpStatus) && l.latencyMS == latency
    && ReasonIs(e, u, l.error)
    && (l.failed <==> Broken(e, u) || l.error != "")
    && CountsAre(e, x.provider.protocol, u, CountsOf(l.tokens))
  }

  /** The archive's record of what was sent: the client's own body, and the upstream's, untouched. */
  ghost predicate ArchiveTells(e: Pipeline.Env, x: Pipeline.Sent, u: Attempt.Upstream, rec: Archive.Record) {
    && rec.dir == e.snap.archiveDir && rec.timestamp == e.req.start && rec.requestID == e.req.id
    && rec.apiKey == e.req.apiKey && rec.model == e.req.alias && rec.request == e.req.body
    && rec.internalModel == x.model.internalID && rec.protocol == x.provider.protocol
    && CountsAre(e, x.provider.protocol, u, rec.tokens)
    && u.Responded?
    && (e.req.isStream ==> rec.response == Archive.Stream(Attempt.Consumed(u.body, u.ending)))
    && (!e.req.isStream && u.body != "" ==> rec.response == Archive.Whole(Some(u.body)))
    && (!e.req.isStream && u.body == "" ==> rec.response == Archive.Whole(None))
  }

  /** The archive takes one record of a 2xx that is used, when archiving is on. */
  ghost predicate ArchivedOnce(e: Pipeline.Env, x: Pipeline.Sent, u: Attempt.Upstream, records: seq<Archive.Record>) {
    && |records| == (if e.snap.archiveDir != "" && !Unused(e, u) && 200 <= u.status < 300 then 1 else 0)
    && forall rec :: rec in records ==> ArchiveTells(e, x, u, rec)
  }

  /** One failure for an answer that goes unused, one success for one that recovers, at the time it ended. */
  ghost predicate Settled(
      e: Pipeline.Env, cand: Indexes.Candidate, w: Pipeline.Weather, events: seq<Failover.Event>)
  {
    var key := Failover.CounterKey(e.req.apiKey, cand.internalID);
    events == if Unused(e, w.upstream) then [Failover.Failed(key, w.ended)]
              else if Recovers(e, w.upstream) then [Failover.Succeeded(key)]
              else []
  }

  /** A turn that sent `x` for its candidate: what it leaves with each recorder, and with the failure counter. */
  ghost predicate TurnTells(
      e: Pipeline.Env, cand: Indexes.Candidate, w: Pipeline.Weather, v: Pipeline.Verdict, x: Pipeline.Sent)
  {
    && x.model.protocol == x.provider.protocol
    && Pipeline.SentOf(e, v) == [x]
    && |Pipeline.LogOf(e, v, w.latency)| == 1
    && LogTells(e, x, w.upstream, w.latency, Pipeline.LogOf(e, v, w.latency)[0])
    && |Pipeline.UsageOf(e, v)| == (if e.snap.proxy.usageEnabled then 1 else 0)
    && (forall a :: a in Pipeline.UsageOf(e, v) ==> UsageTells(e, x, w.upstream, a))
    && ArchivedOnce(e, x, w.upstream, Pipeline.RecordsOf(e, v, w.upstream))
    && Settled(e, cand, w, Pipeline.SettleEvents(e, cand, w, v))
  }

  lemma UsageTold(e: Pipeline.Env, u: Attempt.Upstream, x: Pipeline.Sent, info: Pipeline.Info)
    requires InfoTells(e, x.model.protocol, u, info)
    requires x.model == info.route.model && x.provider == info.route.provider && x.model.protocol == x.provider.protocol
    ensures UsageTells(e, x, u, Pipeline.UsageAttempt(e, info))
  {
  }

  lemma LogTold(e: Pipeline.Env, u: Attempt.Upstream, x: Pipeline.Sent, info: Pipeline.Info, latency: int)
    requires InfoTells(e, x.model.protocol, u, info)
    requires x.model == info.route.model && x.provider == info.route.provider && x.model.protocol == x.provider.protocol
    ensures LogTells(e, x, u, latency, Pipeline.LogEntry(e, info, latency))
  {
    assert CountsOf(Pipeline.LogEntry(e, info, latency).tokens) == info.counts;
  }

  lemma ArchiveTold(e: Pipeline.Env, u: Attempt.Upstream, x: Pipeline.Sent, info: Pipeline.Info)
    requires InfoTells(e, x.model.protocol, u, info) && u.Responded?
    requires x.model == info.route.model && x.provider == info.route.provider && x.model.protocol == x.provider.protocol
    ensures ArchiveTells(e, x, u, Pipeline.RecordOf(e, info, u))
  {
  }

  lemma AttemptIsPosted(
      e: Pipeline.Env, inFlight: map<string, int>, before: string, cand: Indexes.Candidate, w: Pipeline.Weather,
      v: Pipeline.Verdict)
    requires v == Pipeline.JudgeRoute(e, inFlight, before, cand, w) && Pipeline.Attempted(v)
    ensures v == Pipeline.AttemptVerdict(e, v.info.route, w.upstream, before)
    ensures v.info.route.model.protocol == v.info.route.provider.protocol
    ensures Pipeline.Outbound(e, v.info.route).Some?
    ensures Pipeline.SentOf(e, v) == [Pipeline.Posted(v.info.route, Pipeline.Outbound(e, v.info.route).value)]
  {
  }

  lemma AttemptSettles(
      e: Pipeline.Env, cand: Indexes.Candidate, w: Pipeline.Weather, before: string, route: Pipeline.Route,
      v: Pipeline.Verdict)
    requires v == Pipeline.AttemptVerdict(e, route, w.upstream, before) && PlainMarks(e.tools.json)
    ensures Settled(e, cand, w, Pipeline.SettleEvents(e, cand, w, v))
  {
    VerdictTells(e, route, w.upstream, before);
  }

  lemma AttemptArchived(
      e: Pipeline.Env, u: Attempt.Upstream, before: string, v: Pipeline.Verdict, x: Pipeline.Sent)
    requires Pipeline.Attempted(v) && v == Pipeline.AttemptVerdict(e, v.info.route, u, before)
    requires PlainMarks(e.tools.json)
    requires x.model == v.info.route.model && x.provider == v.info.route.provider
    requires x.model.protocol == x.provider.protocol
    ensures ArchivedOnce(e, x, u, Pipeline.RecordsOf(e, v, u))
  {
    VerdictTells(e, v.info.route, u, before);
    if u.Responded? {
      ArchiveTold(e, u, x, v.info);
    }
  }

  /** Each attempt is recorded as what it was. */
  lemma AttemptIsTold(
      e: Pipeline.Env, inFlight: map<string, int>, before: string, cand: Indexes.Candidate, w: Pipeline.Weather,
      v: Pipeline.Verdict)
    requires v == Pipeline.JudgeRoute(e, inFlight, before, cand, w) && Pipeline.Attempted(v)
    requires PlainMarks(e.tools.json)
    ensures |Pipeline.SentOf(e, v)| == 1 && TurnTells(e, cand, w, v, Pipeline.SentOf(e, v)[0])
  {
    AttemptIsPosted(e, inFlight, before, cand, w, v);
    TellsAll(e, before, cand, w, v, Pipeline.SentOf(e, v)[0]);
  }

  lemma TellsAll(
      e: Pipeline.Env, before: string, cand: Indexes.Candidate, w: Pipeline.Weather, v: Pipeline.Verdict,
      x: Pipeline.Sent)
    requires Pipeline.Attempted(v) && v == Pipeline.AttemptVerdict(e, v.info.route, w.upstream, before)
    requires PlainMarks(e.tools.json) && Pipeline.SentOf(e, v) == [x]
    requires x.model == v.info.route.model && x.provider == v.info.route.provider
    requires x.model.protocol == x.provider.protocol
    ensures TurnTells(e, cand, w, v, x)
  {
    VerdictTells(e, v.info.route, w.upstream, before);
    UsageTold(e, w.upstream, x, v.info);
    LogTold(e, w.upstream, x, v.info, w.latency);
    AttemptArchived(e, w.upstream, before, v, x);
    AttemptSettles(e, cand, w, before, v.info.route, v);
  }

  // ---- which candidates are attempted ----

  /** The pair has failed often enough in a row, and not too long ago. */
  ghost predicate Tripped(
      e: Pipeline.Env, history: seq<Failover.Event>, cand: Indexes.Candidate, w: Pipeline.Weather)
  {
    var key := Failover.CounterKey(e.req.apiKey, cand.internalID);
    var own := Failover.Own(key, history);
    var n := if e.snap.proxy.maxFailures < 1 then 1 else e.snap.proxy.maxFailures;
    var seconds := e.snap.proxy.failureResetSeconds;
    && Failover.FailedInARow(key, history, n)
    && (seconds > 0 ==> own != [] && own[|own| - 1].Failed? && w.asked - own[|own| - 1].at <= seconds * 1_000_000_000)
  }

  lemma SkippedIsTripped(
      e: Pipeline.Env, history: seq<Failover.Event>, cand: Indexes.Candidate, w: Pipeline.Weather)
    ensures Pipeline.SkipsCandidate(e, history, cand, w) <==> Tripped(e, history, cand, w)
  {
    var key := Failover.CounterKey(e.req.apiKey, cand.internalID);
    Failover.StreakIsRun(key, history, if e.snap.proxy.maxFailures < 1 then 1 else e.snap.proxy.maxFailures);
  }

  /** The candidate's model, its provider as it is for the client, and a common language with it. */
  ghost predicate Reachable(e: Pipeline.Env, cand: Indexes.Candidate) {
    && cand.internalID in e.snap.idx.models
    && var name := e.snap.idx.models[cand.internalID].providerName;
       && name in e.snap.idx.providers
       && var p := e.snap.idx.providers[name];
          || p.protocol == e.req.protocol
          || (e.req.protocol in p.urls && p.urls[e.req.protocol] != "")
          || (e.req.protocol, p.protocol) in e.tools.translators
  }

  /** All slots of the candidate's provider are taken. */
  ghost predicate Full(e: Pipeline.Env, inFlight: map<string, int>, cand: Indexes.Candidate)
    requires Reachable(e, cand)
  {
    var p := e.snap.idx.providers[e.snap.idx.models[cand.internalID].providerName];
    p.maxConcurrency > 0 && p.name in inFlight && inFlight[p.name] >= p.maxConcurrency
  }

  /** The request cannot be translated for the candidate. */
  ghost predicate Untold(e: Pipeline.Env, cand: Indexes.Candidate) {
    var route := Pipeline.RouteOf(e, cand);
    route.Some? && Pipeline.Outbound(e, route.value).None?
  }

  /** One turn: tripped candidates are skipped, then those out of reach; then a full provider is busy; any other is
      attempted, unless the request cannot be translated for it. */
  lemma TurnIsExact(
      e: Pipeline.Env, history: seq<Failover.Event>, inFlight: map<string, int>, before: string,
      cand: Indexes.Candidate, w: Pipeline.Weather)
    ensures
      var v := Pipeline.Judge(e, history, inFlight, before, cand, w);
      && (v.Skipped? <==> Tripped(e, history, cand, w))
      && (v.Unroutable? <==> !v.Skipped? && !Reachable(e, cand))
      && (v.Busy? ==> Reachable(e, cand) && Full(e, inFlight, cand) && !Untold(e, cand))
      && (Pipeline.Attempted(v) ==> Reachable(e, cand) && !Full(e, inFlight, cand))
      && (v.Failed? ==> Unused(e, w.upstream))
      && (v.Served? ==> !Unused(e, w.upstream))
      && (v.Untranslatable? ==> Reachable(e, cand) && Untold(e, cand))
  {
    SkippedIsTripped(e, history, cand, w);
    RouteReaches(e, cand);
  }

  lemma RouteReaches(e: Pipeline.Env, cand: Indexes.Candidate)
    ensures Pipeline.RouteOf(e, cand).Some? <==> Reachable(e, cand)
    ensures Reachable(e, cand) ==>
              var p := e.snap.idx.providers[e.snap.idx.models[cand.internalID].providerName];
              && Pipeline.RouteOf(e, cand).value.provider.name == p.name
              && Pipeline.RouteOf(e, cand).value.provider.maxConcurrency == p.maxConcurrency
  {
  }

  /** A request is turned away, with the first of four statuses that applies, exactly when its protocol is not allowed
      to its key, it does not name a model, its key has no candidate for it, or none of them is in reach. */
  lemma RefusalIsExact(e: Pipeline.Env, ctx: Indexes.Context)
    ensures
      var refusal, cands := Pipeline.Refusal(e, ctx), Indexes.Routed(ctx, e.req.alias);
      var asks := e.req.readable && e.req.alias != "";
      && (refusal == Some(403) <==> e.req.protocol !in ctx.allowed)
      && (refusal == Some(400) <==> e.req.protocol in ctx.allowed && !asks)
      && (refusal == Some(404) <==> e.req.protocol in ctx.allowed && asks && cands == [])
      && (refusal == Some(501) <==> e.req.protocol in ctx.allowed && asks && cands != [] &&
                                    forall c :: c in cands ==> !Reachable(e, c))
      && (refusal == None <==> e.req.protocol in ctx.allowed && asks && exists c :: c in cands && Reachable(e, c))
  {
    var cands := Indexes.Routed(ctx, e.req.alias);
    forall c | c in cands ensures Pipeline.RouteOf(e, c).Some? <==> Reachable(e, c) {
      RouteReaches(e, c);
    }
    if forall i :: 0 <= i < |cands| ==> Pipeline.RouteOf(e, cands[i]).None? {
      assert forall c :: c in cands ==> !Reachable(e, c);
    }
  }

  // ---- the records of a request ----

  /** The `k`-th entry of the log, and of the usage records if they are kept, tell of the `k`-th thing sent. */
  ghost predicate ToldAt(
      e: Pipeline.Env, ws: seq<Pipeline.Weather>, sent: seq<Pipeline.Sent>, log: seq<CallLog.Entry>,
      usage: seq<Usage.Attempt>, k: nat)
    requires k < |sent| == |log| && (e.snap.proxy.usageEnabled ==> k < |usage|)
  {
    exists j :: 0 <= j < |ws| && LogTells(e, sent[k], ws[j].upstream, ws[j].latency, log[k])
                && (e.snap.proxy.usageEnabled ==> UsageTells(e, sent[k], ws[j].upstream, usage[k]))
  }

  ghost predicate ToldInStep(
      e: Pipeline.Env, ws: seq<Pipeline.Weather>, sent: seq<Pipeline.Sent>, log: seq<CallLog.Entry>,
      usage: seq<Usage.Attempt>)
  {
    && |log| == |sent|
    && |usage| == (if e.snap.proxy.usageEnabled then |sent| else 0)
    && forall k :: 0 <= k < |sent| ==> ToldAt(e, ws, sent, log, usage, k)
  }

  lemma StepTold(
      e: Pipeline.Env, ws: seq<Pipeline.Weather>, sent: seq<Pipeline.Sent>, log: seq<CallLog.Entry>,
      usage: seq<Usage.Attempt>, j: nat, x: Pipeline.Sent, l: CallLog.Entry, us: seq<Usage.Attempt>)
    requires ToldInStep(e, ws, sent, log, usage) && j < |ws|
    requires LogTells(e, x, ws[j].upstream, ws[j].latency, l)
    requires |us| == if e.snap.proxy.usageEnabled then 1 else 0
    requires forall a :: a in us ==> UsageTells(e, x, ws[j].upstream, a)
    ensures ToldInStep(e, ws, sent + [x], log + [l], usage + us)
  {
    var sent', log', usage' := sent + [x], log + [l], usage + us;
    forall k | 0 <= k < |sent'| ensures ToldAt(e, ws, sent', log', usage', k) {
      if k < |sent| {
        assert ToldAt(e, ws, sent, log, usage, k);
        var i :| 0 <= i < |ws| && LogTells(e, sent[k], ws[i].upstream, ws[i].latency, log[k])
                 && (e.snap.proxy.usageEnabled ==> UsageTells(e, sent[k], ws[i].upstream, usage[k]));
        assert LogTells(e, sent'[k], ws[i].upstream, ws[i].latency, log'[k]);
      } else {
        assert LogTells(e, sent'[k], ws[j].upstream, ws[j].latency, log'[k]);
        if e.snap.proxy.usageEnabled {
          assert us[0] in us && usage'[k] == us[0];
        }
      }
    }
  }

  lemma {:induction false} TrailIsTold(
      e: Pipeline.Env, inFlight: map<string, int>, before: string, cands: seq<Indexes.Candidate>,
      ws: seq<Pipeline.Weather>, trail: seq<Pipeline.Verdict>)
    requires |trail| <= |cands| == |ws| && PlainMarks(e.tools.json)
    requires forall i :: 0 <= i < |trail| && !trail[i].Skipped? ==>
               trail[i] == Pipeline.JudgeRoute(e, inFlight, before, cands[i], ws[i])
    ensures ToldInStep(e, ws, Pipeline.SentAll(e, trail), Pipeline.LogAll(e, ws, trail), Pipeline.UsageAll(e, trail))
  {
    if trail != [] {
      var n := |trail| - 1;
      var front, v := trail[..n], trail[n];
      TrailIsTold(e, inFlight, before, cands, ws, front);
      if Pipeline.Attempted(v) {
        AttemptIsTold(e, inFlight, before, cands[n], ws[n], v);
        var x, l := Pipeline.SentOf(e, v)[0], Pipeline.LogOf(e, v, ws[n].latency)[0];
        assert Pipeline.SentOf(e, v) == [x] && Pipeline.LogOf(e, v, ws[n].latency) == [l];
        StepTold(e, ws, Pipeline.SentAll(e, front), Pipeline.LogAll(e, ws, front), Pipeline.UsageAll(e, front), n, x, l,
                 Pipeline.UsageOf(e, v));
      } else {
        assert Pipeline.SentAll(e, trail) == Pipeline.SentAll(e, front);
        assert Pipeline.LogAll(e, ws, trail) == Pipeline.LogAll(e, ws, front);
        assert Pipeline.UsageAll(e, trail) == Pipeline.UsageAll(e, front);
      }
    }
  }

  /** Over a whole request: the call log and the usage records hold one entry per body sent, in the order of sending,
      and each tells of the model that body asked for, the provider it went to and the answer that came. */
  lemma RequestIsTold(
      e: Pipeline.Env, history: seq<Failover.Event>, inFlight: map<string, int>, before: string,
      cands: seq<Indexes.Candidate>, ws: seq<Pipeline.Weather>)
    requires |ws| == |cands| && PlainMarks(e.tools.json)
    ensures
      var trail := Pipeline.Serve(e, history, inFlight, before, cands, ws);
      ToldInStep(e, ws, Pipeline.SentAll(e, trail), Pipeline.LogAll(e, ws, trail), Pipeline.UsageAll(e, trail))
  {
    Pipeline.TriedInOrder(e, history, inFlight, before, cands, ws);
    TrailIsTold(e, inFlight, before, cands, ws, Pipeline.Serve(e, history, inFlight, before, cands, ws));
  }

  /** The request is archived exactly when archiving is on and the client was answered with a 2xx, once, and the record
      tells of the last thing sent. */
  ghost predicate ArchivedAsTold(e: Pipeline.Env, ws: seq<Pipeline.Weather>, trail: seq<Pipeline.Verdict>)
    requires |trail| <= |ws|
  {
    var records, sent := Pipeline.Archived(e, trail, ws), Pipeline.SentAll(e, trail);
    && |records| == (if e.snap.archiveDir != "" && 200 <= Pipeline.Answer(trail) < 300 then 1 else 0)
    && (records != [] ==>
          trail != [] && sent != [] && ArchiveTells(e, sent[|sent| - 1], ws[|trail| - 1].upstream, records[0]))
  }

  lemma LastIsArchived(
      e: Pipeline.Env, inFlight: map<string, int>, before: string, cand: Indexes.Candidate, ws: seq<Pipeline.Weather>,
      trail: seq<Pipeline.Verdict>)
    requires 0 < |trail| <= |ws| && PlainMarks(e.tools.json)
    requires
      var v, w := trail[|trail| - 1], ws[|trail| - 1];
      v.Skipped? || v == Pipeline.JudgeRoute(e, inFlight, before, cand, w)
    ensures ArchivedAsTold(e, ws, trail)
  {
    var v, w := trail[|trail| - 1], ws[|trail| - 1];
    if v.Served? {
      Pipeline.ServedWas(e, inFlight, before, cand, w, v);
      AttemptIsPosted(e, inFlight, before, cand, w, v);
      var x := Pipeline.SentOf(e, v)[0];
      VerdictTells(e, v.info.route, w.upstream, before);
      ArchiveTold(e, w.upstream, x, v.info);
      assert Pipeline.SentAll(e, trail) == Pipeline.SentAll(e, trail[..|trail| - 1]) + [x];
    }
  }

  lemma ArchiveIsTold(
      e: Pipeline.Env, history: seq<Failover.Event>, inFlight: map<string, int>, before: string,
      cands: seq<Indexes.Candidate>, ws: seq<Pipeline.Weather>, trail: seq<Pipeline.Verdict>)
    requires |ws| == |cands| && trail == Pipeline.Serve(e, history, inFlight, before, cands, ws)
    requires PlainMarks(e.tools.json)
    ensures ArchivedAsTold(e, ws, trail)
  {
    Pipeline.TriedInOrder(e, history, inFlight, before, cands, ws);
    if trail != [] {
      LastIsArchived(e, inFlight, before, cands[|trail| - 1], ws, trail);
    }
  }

  // ---- what the client reads ----

  /** What an answer read whole becomes for the client: a 2xx in another protocol is translated if it can be, anything
      else left as it is. */
  predicate WholeIs(e: Pipeline.Env, x: Pipeline.Sent, u: Attempt.Upstream, bytes: string)
    requires u.Responded?
  {
    var key := (e.req.protocol, x.provider.protocol);
    if 200 <= u.status < 300 && e.req.protocol != x.provider.protocol && key in e.tools.translators
       && e.tools.translators[key].upstream.response(u.body).Some? then
      bytes == e.tools.translators[key].upstream.response(u.body).value
    else bytes == u.body
  }

  /** What is read of an attempt that was served: a whole answer, with the alias in it when the rewrite is on; and of a
      stream the upstream refused, its own error body. */
  ghost predicate ReadsAs(e: Pipeline.Env, x: Pipeline.Sent, u: Attempt.Upstream, before: string, received: string) {
    && u.Responded?
    && (!e.req.isStream ==>
          exists bytes :: WholeIs(e, x, u, bytes) && received ==
            before + if e.snap.proxy.rewriteModel then ModelRewrite.RewriteModelFields(e.tools.json, bytes, e.req.alias)
                     else bytes)
    && (e.req.isStream && u.status >= 400 ==> received == before + u.body)
  }

  lemma DeliveredReads(e: Pipeline.Env, route: Pipeline.Route, u: Attempt.Upstream, before: string, body: string)
    requires u.Responded? && Pipeline.AttemptVerdict(e, route, u, before).Served?
    requires
      var key := (e.req.protocol, route.provider.protocol);
      route.translator == if e.req.protocol != route.provider.protocol && key in e.tools.translators
                          then Some(e.tools.translators[key]) else None
    ensures ReadsAs(e, Pipeline.Posted(route, body), u, before, Pipeline.Delivered(e, route, u, before))
  {
    if !e.req.isStream {
      var job := Pipeline.JobOf(e, route);
      var bytes :=
        if job.pair.Some? && Pipeline.Is2xx(u.status) && job.pair.value.response(u.body).Some? then
          job.pair.value.response(u.body).value
        else u.body;
      assert WholeIs(e, Pipeline.Posted(route, body), u, bytes);
    }
  }

  lemma LastIsRead(
      e: Pipeline.Env, inFlight: map<string, int>, before: string, cand: Indexes.Candidate, ws: seq<Pipeline.Weather>,
      trail: seq<Pipeline.Verdict>)
    requires 0 < |trail| <= |ws| && trail[|trail| - 1].Served?
    requires trail[|trail| - 1] == Pipeline.JudgeRoute(e, inFlight, before, cand, ws[|trail| - 1])
    ensures
      var sent := Pipeline.SentAll(e, trail);
      && sent != []
      && ReadsAs(e, sent[|sent| - 1], ws[|trail| - 1].upstream, before, Pipeline.Received(e, trail, ws, before))
  {
    var n := |trail| - 1;
    var v := trail[n];
    AttemptIsPosted(e, inFlight, before, cand, ws[n], v);
    Pipeline.ServedWas(e, inFlight, before, cand, ws[n], v);
    RouteIs(e, inFlight, before, cand, ws[n], v);
    DeliveredReads(e, v.info.route, ws[n].upstream, before, Pipeline.SentOf(e, v)[0].body);
  }

  /** A client that is served by an upstream reads that upstream's answer, and nothing of those tried before. */
  lemma AnswerIsUpstreams(
      e: Pipeline.Env, history: seq<Failover.Event>, inFlight: map<string, int>, before: string,
      cands: seq<Indexes.Candidate>, ws: seq<Pipeline.Weather>, trail: seq<Pipeline.Verdict>)
    requires |ws| == |cands| && trail == Pipeline.Serve(e, history, inFlight, before, cands, ws)
    requires trail != [] && trail[|trail| - 1].Served?
    ensures
      var sent := Pipeline.SentAll(e, trail);
      && sent != []
      && ReadsAs(e, sent[|sent| - 1], ws[|trail| - 1].upstream, before, Pipeline.Received(e, trail, ws, before))
  {
    Pipeline.TriedInOrder(e, history, inFlight, before, cands, ws);
    LastIsRead(e, inFlight, before, cands[|trail| - 1], ws, trail);
  }

  lemma RouteIs(
      e: Pipeline.Env, inFlight: map<string, int>, before: string, cand: Indexes.Candidate, w: Pipeline.Weather,
      v: Pipeline.Verdict)
    requires v == Pipeline.JudgeRoute(e, inFlight, before, cand, w) && Pipeline.Attempted(v)
    ensures
      var route := v.info.route;
      var key := (e.req.protocol, route.provider.protocol);
      route.translator == if e.req.protocol != route.provider.protocol && key in e.tools.translators
                          then Some(e.tools.translators[key]) else None
  {
  }
}
