/** internal/pipeline/pipeline.go: one client request, its candidates tried in order until one is committed. */
module Pipeline {
  import opened Wrappers
  import opened Strings
  import opened Lists
  import Config
  import Indexes
  import Glob
  import Streams
  import ModelRewrite
  import Attempt
  import Failover
  import Limiter
  import Usage
  import CallLog
  import Archive

  // ---- what a request is served with ----

  /** A registered translation between two protocols. */
  datatype Translator = Translator(request: string -> Option<string>, upstream: Attempt.Pair)

  /** The code the pipeline calls but does not look into. `payload` is the payload rule engine. */
  datatype Tools = Tools(
    json: ModelRewrite.Json,
    setModel: (string, string) -> string,
    translators: map<(string, string), Translator>,
    payload: (string, Indexes.ResolvedModel, string) -> string,
    mineEvent: (string, string) -> Option<Usage.Counts>,
    mineBody: (string, string) -> Option<Usage.Counts>,
    explain: (int, string) -> string,
    errorBody: int -> string)

  /** The snapshot a request works with from beginning to end. */
  datatype Snapshot = Snapshot(proxy: Config.Proxy, archiveDir: string, idx: Indexes.Indexes)

  /** A client request; `readable` says whether its body could be read. */
  datatype Request = Request(
    id: string,
    endpoint: string,
    apiKey: string,
    alias: string,
    protocol: string,
    isStream: bool,
    readable: bool,
    body: string,
    start: int)

  /** What one candidate would meet: the clock when it is asked for and when its attempt has ended, the latency
      logged, and the upstream's answer. */
  datatype Weather = Weather(asked: int, ended: int, latency: int, upstream: Attempt.Upstream)

  datatype Route = Route(provider: Indexes.ProviderEntry, model: Indexes.ResolvedModel, translator: Option<Translator>)

  datatype Env = Env(tools: Tools, snap: Snapshot, req: Request)

  /** The provider as seen by a client protocol. */
  function ResolveUpstream(p: Indexes.ProviderEntry, protocol: string): Indexes.ProviderEntry {
    var q := Config.Provider(p.name, p.protocol, p.url, p.urls, p.key, p.headers, None, []);
    var (proto, url) := Config.UpstreamFor(q, protocol);
    p.(protocol := proto, url := url)
  }

  /** The provider, model and translator of a candidate, if it can be used at all. */
  function RouteOf(e: Env, cand: Indexes.Candidate): Option<Route> {
    var idx := e.snap.idx;
    if cand.internalID !in idx.models then None
    else
      var rm := idx.models[cand.internalID];
      if rm.providerName !in idx.providers then None
      else
        var pe := ResolveUpstream(idx.providers[rm.providerName], e.req.protocol);
        var model := rm.(protocol := pe.protocol);
        if pe.protocol == e.req.protocol then Some(Route(pe, model, None))
        else if (e.req.protocol, pe.protocol) in e.tools.translators then
          Some(Route(pe, model, Some(e.tools.translators[(e.req.protocol, pe.protocol)])))
        else None
  }

  /** The body sent upstream, made afresh from the client's body for every candidate; None when it cannot be
      translated. */
  function Outbound(e: Env, route: Route): Option<string> {
    var renamed := e.tools.setModel(e.req.body, route.model.upstreamModel);
    var translated := if route.translator.Some? then route.translator.value.request(renamed) else Some(renamed);
    if translated.None? then None
    else Some(e.tools.payload(translated.value, route.model, e.req.protocol))
  }

  function JobOf(e: Env, route: Route): Attempt.Job {
    var protocol := route.model.protocol;
    Attempt.Job(
      e.tools.json,
      e.req.alias,
      e.snap.proxy.rewriteModel,
      e.snap.proxy.retryCodes,
      if route.translator.Some? then Some(route.translator.value.upstream) else None,
      payload => e.tools.mineEvent(protocol, payload),
      e.tools.explain)
  }

  function KeyOf(e: Env, cand: Indexes.Candidate): Failover.CounterKey {
    Failover.CounterKey(e.req.apiKey, cand.internalID)
  }

  // ---- the outcome of one candidate ----

  /** What is recorded about an attempt. */
  datatype Info = Info(route: Route, status: int, counts: Usage.Counts, failed: bool, reason: string)

  datatype Verdict =
    | Skipped                              // by the failure counter
    | Unroutable
    | Untranslatable                       // answers 400
    | Busy                                 // refused a slot
    | Failed(info: Info)                   // attempted, nothing written
    | Served(info: Info, succeeded: bool)  // attempted and committed

  predicate Attempted(v: Verdict) {
    v.Failed? || v.Served?
  }

  /** The verdicts that end the request. */
  predicate Terminal(v: Verdict) {
    v.Untranslatable? || v.Served?
  }

  predicate Is2xx(status: int) {
    200 <= status < 300
  }

  predicate Commits(job: Attempt.Job, upstream: Attempt.Upstream) {
    Attempt.PassesError(job, upstream) ||
    (Attempt.Relays(job, upstream) && Attempt.Consumed(upstream.body, upstream.ending) != "")
  }

  function RelayOf(job: Attempt.Job, upstream: Attempt.Upstream, before: string): Attempt.Flow
    requires upstream.Responded?
  {
    Attempt.FlowLines(job, Attempt.Lines(Attempt.Consumed(upstream.body, upstream.ending)), Attempt.Start(before))
  }

  /** The verdict on a streamed attempt, for a client that has received `before`. */
  function StreamVerdict(e: Env, route: Route, upstream: Attempt.Upstream, before: string): Verdict {
    var job := JobOf(e, route);
    var reason := Attempt.StreamReason(job, upstream);
    var status := if upstream.Responded? then upstream.status else 0;
    var counts := if Commits(job, upstream) && !Attempt.PassesError(job, upstream)
                  then RelayOf(job, upstream, before).acc else Usage.NO_COUNTS;
    var clean := Attempt.PassesError(job, upstream) || (upstream.Responded? && upstream.ending.Eof?);
    var final := Attempt.Finalized(counts, route.model.protocol);
    if Commits(job, upstream) then Served(Info(route, status, final, !clean, reason), clean)
    else Failed(Info(route, status, final, true, reason))
  }

  predicate ReadsWhole(upstream: Attempt.Upstream) {
    upstream.Responded? && upstream.ending.Eof?
  }

  function WholeVerdict(e: Env, route: Route, upstream: Attempt.Upstream): Verdict {
    var job := JobOf(e, route);
    var reason := Attempt.WholeReason(job, upstream);
    var status := if ReadsWhole(upstream) then upstream.status else 0;
    var mined := if ReadsWhole(upstream) then e.tools.mineBody(route.model.protocol, upstream.body) else None;
    var counts := if mined.Some? then mined.value else Usage.NO_COUNTS;
    var final := Attempt.Finalized(counts, route.model.protocol);
    if ReadsWhole(upstream) && !Attempt.IsRetryableStatus(job, status) then
      Served(Info(route, status, final, false, reason), Is2xx(status))
    else Failed(Info(route, status, final, true, reason))
  }

  function AttemptVerdict(e: Env, route: Route, upstream: Attempt.Upstream, before: string): Verdict {
    if e.req.isStream then StreamVerdict(e, route, upstream, before) else WholeVerdict(e, route, upstream)
  }

  /** The verdict on a candidate the failure counter lets through, given which slots are taken. */
  function JudgeRoute(
      e: Env, inFlight: map<string, int>, before: string, cand: Indexes.Candidate, w: Weather): Verdict
  {
    match RouteOf(e, cand)
    case None => Unroutable
    case Some(route) =>
      if Outbound(e, route).None? then Untranslatable
      else if Limiter.Refuses(inFlight, route.provider.name, route.provider.maxConcurrency) then Busy
      else AttemptVerdict(e, route, w.upstream, before)
  }

  predicate SkipsCandidate(e: Env, history: seq<Failover.Event>, cand: Indexes.Candidate, w: Weather) {
    Failover.Skips(history, KeyOf(e, cand), e.snap.proxy.maxFailures, e.snap.proxy.failureResetSeconds, w.asked)
  }

  /** The verdict on a candidate, given also what has happened to the failure counter. */
  function Judge(
      e: Env, history: seq<Failover.Event>, inFlight: map<string, int>, before: string, cand: Indexes.Candidate,
      w: Weather): Verdict
  {
    if SkipsCandidate(e, history, cand, w) then Skipped else JudgeRoute(e, inFlight, before, cand, w)
  }

  // ---- what a candidate leaves behind ----

  /** The failure counter's history after a candidate. */
  function HistoryAfter(
      e: Env, history: seq<Failover.Event>, cand: Indexes.Candidate, w: Weather, v: Verdict): seq<Failover.Event>
  {
    Expired(e, history, cand, w) + SettleEvents(e, cand, w, v)
  }

  /** Asking whether to skip a candidate drops a stale streak. */
  function Expired(e: Env, history: seq<Failover.Event>, cand: Indexes.Candidate, w: Weather): seq<Failover.Event> {
    history + Failover.Expiry(history, KeyOf(e, cand), e.snap.proxy.failureResetSeconds, w.asked)
  }

  /** One failure for an attempt that wrote nothing, a success for one that succeeded, else nothing. */
  function SettleEvents(e: Env, cand: Indexes.Candidate, w: Weather, v: Verdict): seq<Failover.Event> {
    if v.Failed? then [Failover.Failed(KeyOf(e, cand), w.ended)]
    else if v.Served? && v.succeeded then [Failover.Succeeded(KeyOf(e, cand))]
    else []
  }

  function UsageOf(e: Env, v: Verdict): seq<Usage.Attempt> {
    if Attempted(v) && e.snap.proxy.usageEnabled then [UsageAttempt(e, v.info)] else []
  }

  function UsageAttempt(e: Env, info: Info): Usage.Attempt {
    var rm := info.route.model;
    Usage.Attempt(
      Usage.Key(rm.providerName, rm.protocol, rm.aliasA, rm.upstreamModel, rm.internalID, e.req.protocol, rm.protocol,
                info.status),
      info.counts,
      info.failed)
  }

  function LogEntry(e: Env, info: Info, latency: int): CallLog.Entry {
    var rm, c := info.route.model, info.counts;
    CallLog.Entry(
      e.req.id, e.req.start, e.req.endpoint, e.req.apiKey, e.req.protocol, e.req.alias, rm.providerName, rm.protocol,
      rm.upstreamModel, rm.internalID, info.status, latency, info.failed || info.reason != "", info.reason,
      CallLog.Tokens(c.input, c.output, c.cacheRead, c.cacheCreation, c.cached, c.reasoning, c.total))
  }

  /** What is sent upstream: where to, and the body. */
  datatype Sent = Sent(provider: Indexes.ProviderEntry, model: Indexes.ResolvedModel, body: string)

  function Posted(route: Route, body: string): Sent {
    Sent(route.provider, route.model, body)
  }

  /** The body sent in an attempt. */
  function SentOf(e: Env, v: Verdict): seq<Sent> {
    if Attempted(v) && Outbound(e, v.info.route).Some? then
      [Posted(v.info.route, Outbound(e, v.info.route).value)]
    else []
  }

  function LogOf(e: Env, v: Verdict, latency: int): seq<CallLog.Entry> {
    if Attempted(v) then [LogEntry(e, v.info, latency)] else []
  }

  /** What the client has received after an attempt that served it. */
  function Delivered(e: Env, route: Route, upstream: Attempt.Upstream, before: string): string
    requires upstream.Responded?
  {
    var job := JobOf(e, route);
    if !e.req.isStream then before + WholeBody(e, job, upstream)
    else if Attempt.PassesError(job, upstream) then before + upstream.body
    else RelayOf(job, upstream, before).sent
  }

  /** The body a whole response becomes: translated if it can be, then given the alias. */
  function WholeBody(e: Env, job: Attempt.Job, upstream: Attempt.Upstream): string
    requires upstream.Responded?
  {
    var translated :=
      if job.pair.Some? && Is2xx(upstream.status) then job.pair.value.response(upstream.body) else None;
    var body := if translated.Some? then translated.value else upstream.body;
    if e.snap.proxy.rewriteModel then ModelRewrite.RewriteModelFields(e.tools.json, body, e.req.alias) else body
  }

  /** The archive's view of a served request. */
  function RecordOf(e: Env, info: Info, upstream: Attempt.Upstream): Archive.Record
    requires upstream.Responded?
  {
    var rm := info.route.model;
    Archive.Record(
      e.snap.archiveDir, e.req.start, e.req.id, e.req.apiKey, e.req.alias, rm.internalID, rm.protocol, info.counts,
      e.req.body,
      if e.req.isStream then Archive.Stream(Attempt.Consumed(upstream.body, upstream.ending))
      else Archive.Whole(if upstream.body == "" then None else Some(upstream.body)))
  }

  /** A committed 2xx, with archiving on. */
  function RecordsOf(e: Env, v: Verdict, upstream: Attempt.Upstream): seq<Archive.Record> {
    if v.Served? && Is2xx(v.info.status) && e.snap.archiveDir != "" && upstream.Responded?
    then [RecordOf(e, v.info, upstream)] else []
  }

  /** What the queue takes of some records. */
  function Takes(open: bool, room: int, records: seq<Archive.Record>): seq<Archive.Record> {
    if open && room > 0 then records else []
  }

  // ---- the handler ----

  /** The way out to the providers: everything sent so far, by any request. */
  class Network {
    var sent: seq<Sent>

    constructor ()
      ensures sent == []
    {
      sent := [];
    }

    method Post(route: Route, body: string)
      modifies this
      ensures sent == old(sent) + [Posted(route, body)]
    {
      sent := sent + [Posted(route, body)];
    }
  }

  class Handler {
    const network: Network
    const counter: Failover.Counter
    const limiter: Limiter.Limiter
    const usage: Usage.Recorder
    const log: CallLog.Recorder
    const archive: Archive.Writer

    constructor (network: Network, counter: Failover.Counter, limiter: Limiter.Limiter, usage: Usage.Recorder,
                 log: CallLog.Recorder, archive: Archive.Writer)
      ensures this.network == network && this.counter == counter && this.limiter == limiter && this.usage == usage
      ensures this.log == log && this.archive == archive
    {
      this.network := network;
      this.counter, this.limiter, this.usage, this.log, this.archive := counter, limiter, usage, log, archive;
    }

    ghost predicate Valid()
      reads counter, limiter, usage, log, log.buf, archive
    {
      && counter.Valid() && usage.Valid() && log.Valid() && archive.Valid()
      && forall p :: p in limiter.inFlight ==> limiter.inFlight[p] > 0
    }

    /** recordUsage: the aggregate and the call log, independently. */
    method RecordUsage(e: Env, info: Info, latency: int)
      requires usage.Valid() && log.Valid()
      modifies usage, log, log.buf
      ensures usage.Valid() && log.Valid()
      ensures usage.history ==
              old(usage.history) + if e.snap.proxy.usageEnabled then [UsageAttempt(e, info)] else []
      ensures log.history == old(log.history) + if log.Enabled() then [LogEntry(e, info, latency)] else []
    {
      if e.snap.proxy.usageEnabled {
        var a := UsageAttempt(e, info);
        usage.Record(a.key, a.counts, a.failed);
      }
      if log.Enabled() {
        log.Record(LogEntry(e, info, latency));
      }
    }

    /** The call of a streamed candidate, in its slot. */
    method StreamAttempt(e: Env, route: Route, upstream: Attempt.Upstream, client: Attempt.Client, sink: Attempt.Sink?)
      returns (v: Verdict)
      requires e.req.isStream
      modifies client, sink
      ensures v == StreamVerdict(e, route, upstream, old(client.body))
      ensures v.Failed? ==> client.heads == old(client.heads) && client.body == old(client.body)
      ensures v.Served? ==>
                && upstream.Responded? && v.info.status == upstream.status
                && client.heads == old(client.heads) + [upstream.status]
                && client.body == Delivered(e, route, upstream, old(client.body))
      ensures sink != null ==> v.Failed? ==> sink.data == old(sink.data)
      ensures sink != null ==> v.Served? && Is2xx(v.info.status) ==>
                sink.data == old(sink.data) + Attempt.Consumed(upstream.body, upstream.ending)
    {
      var job := JobOf(e, route);
      var r := Attempt.AttemptStream(job, upstream, client, sink);
      var final := Attempt.FinalizeCounts(r.counts, route.model.protocol);
      var info := Info(route, r.status, final, r.retryable || !r.cleanComplete, r.errMsg);
      v := if r.retryable then Failed(info) else Served(info, r.cleanComplete);
    }

    /** The call of a candidate read whole; the client is written to only when it is not retried. */
    method WholeAttempt(e: Env, route: Route, upstream: Attempt.Upstream, client: Attempt.Client) returns (v: Verdict)
      requires !e.req.isStream
      modifies client
      ensures v == WholeVerdict(e, route, upstream)
      ensures v.Failed? ==> client.heads == old(client.heads) && client.body == old(client.body)
      ensures v.Served? ==>
                && upstream.Responded? && v.info.status == upstream.status
                && client.heads == old(client.heads) + [upstream.status]
                && client.body == Delivered(e, route, upstream, old(client.body))
    {
      var job := JobOf(e, route);
      var r := Attempt.AttemptNonStream(job, upstream);
      var counts := Usage.NO_COUNTS;
      if r.raw.Some? {
        var mined := e.tools.mineBody(route.model.protocol, r.raw.value);
        if mined.Some? {
          counts := mined.value;
        }
      }
      var final := Attempt.FinalizeCounts(counts, route.model.protocol);
      var info := Info(route, r.status, final, r.retryable, r.errMsg);
      if r.retryable {
        return Failed(info);
      }
      var bytes := r.body;
      if e.snap.proxy.rewriteModel {
        bytes := ModelRewrite.RewriteModelFields(e.tools.json, bytes, e.req.alias);
      }
      client.WriteHeader(r.status);
      client.Write(bytes);
      return Served(info, Is2xx(r.status));
    }

    /** The call of a candidate, streamed or whole; nothing is written for one that failed. */
    method CallUpstream(
        e: Env, route: Route, body: string, upstream: Attempt.Upstream, client: Attempt.Client, sink: Attempt.Sink?)
      returns (v: Verdict)
      modifies network, client, sink
      ensures network.sent == old(network.sent) + [Posted(route, body)]
      ensures v == AttemptVerdict(e, route, upstream, old(client.body))
      ensures Writes(e, route, upstream, v, old(client.heads), old(client.body), client.heads, client.body)
      ensures sink != null ==> v.Failed? ==> sink.data == old(sink.data)
      ensures sink != null ==> e.req.isStream && v.Served? && Is2xx(v.info.status) ==>
                sink.data == old(sink.data) + Attempt.Consumed(upstream.body, upstream.ending)
    {
      network.Post(route, body);
      if e.req.isStream {
        v := StreamAttempt(e, route, upstream, client, sink);
      } else {
        v := WholeAttempt(e, route, upstream, client);
      }
    }

    /** A granted candidate: the attempt, the release of its slot, and the records of it. */
    method CallCandidate(
        e: Env, route: Route, body: string, w: Weather, slot: Limiter.Slot, client: Attempt.Client, sink: Attempt.Sink?)
      returns (v: Verdict)
      requires usage.Valid() && log.Valid() && slot.limiter == limiter && Outbound(e, route) == Some(body)
      modifies network, client, sink, slot, limiter, usage, log, log.buf
      ensures usage.Valid() && log.Valid()
      ensures Called(e, route, w, v, old(Scene(client)), Scene(client))
      ensures sink != null ==> v.Failed? ==> sink.data == old(sink.data)
      ensures sink != null ==> e.req.isStream && v.Served? && Is2xx(v.info.status) ==>
                sink.data == old(sink.data) + Attempt.Consumed(w.upstream.body, w.upstream.ending)
      ensures limiter.inFlight ==
              if old(slot.owed) then Limiter.Released(old(limiter.inFlight), slot.provider) else old(limiter.inFlight)
    {
      v := CallUpstream(e, route, body, w.upstream, client, sink);
      slot.Call();
      RecordUsage(e, v.info, w.latency);
    }

    /** After the attempt: the failure counter, and the archive when a 2xx was committed. */
    method Settle(e: Env, cand: Indexes.Candidate, w: Weather, v: Verdict, sink: Attempt.Sink?)
      requires counter.Valid() && archive.Valid() && Attempted(v)
      requires v.Served? ==> w.upstream.Responded?
      requires sink != null <==> e.snap.archiveDir != ""
      requires sink != null && e.req.isStream && v.Served? && Is2xx(v.info.status) ==>
                 sink.data == Attempt.Consumed(w.upstream.body, w.upstream.ending)
      modifies counter, archive
      ensures counter.Valid() && archive.Valid()
      ensures counter.history == old(counter.history) + SettleEvents(e, cand, w, v)
      ensures archive.accepted == old(archive.accepted) +
              Takes(!old(archive.closed), Archive.QUEUE_SIZE - |old(archive.queue)|, RecordsOf(e, v, w.upstream))
      ensures v.Failed? ==> archive.closed == old(archive.closed) && archive.queue == old(archive.queue)
    {
      if v.Failed? {
        counter.OnFailure(e.req.apiKey, cand.internalID, w.ended);
        return;
      }
      if v.succeeded {
        counter.OnSuccess(e.req.apiKey, cand.internalID);
      }
      if Is2xx(v.info.status) && e.snap.archiveDir != "" {
        var rm := v.info.route.model;
        var response := if e.req.isStream then Archive.Stream(sink.data)
                        else Archive.Whole(if w.upstream.body == "" then None else Some(w.upstream.body));
        archive.Enqueue(Archive.Record(
          e.snap.archiveDir, e.req.start, e.req.id, e.req.apiKey, e.req.alias, rm.internalID, rm.protocol,
          v.info.counts, e.req.body, response));
      }
    }

    /** Everything a request can change, as values. */
    ghost function Scene(client: Attempt.Client): Scene
      reads network, counter, limiter, usage, log, archive, client
    {
      SceneOf(network.sent, counter.history, limiter.inFlight, usage.history, log.history, log.Enabled(), archive.accepted,
              !archive.closed && |archive.queue| < Archive.QUEUE_SIZE, client.heads, client.body)
    }

    method Granted(
        e: Env, route: Route, body: string, cand: Indexes.Candidate, w: Weather, slot: Limiter.Slot,
        client: Attempt.Client, sink: Attempt.Sink?)
      returns (v: Verdict)
      requires counter.Valid() && usage.Valid() && log.Valid() && archive.Valid() && slot.limiter == limiter
      requires Outbound(e, route) == Some(body)
      requires sink != null <==> e.snap.archiveDir != ""
      requires sink != null ==> sink.data == ""
      modifies network, client, sink, slot, counter, limiter, usage, log, log.buf, archive
      ensures counter.Valid() && usage.Valid() && log.Valid() && archive.Valid()
      ensures limiter.inFlight ==
              if old(slot.owed) then Limiter.Released(old(limiter.inFlight), slot.provider) else old(limiter.inFlight)
      ensures v == AttemptVerdict(e, route, w.upstream, old(client.body))
      ensures counter.history == old(counter.history) + SettleEvents(e, cand, w, v)
      ensures Leaves(e, w, v, old(Scene(client)), Scene(client)) && (sink != null && !Terminal(v) ==> sink.data == "")
    {
      ghost var before := Scene(client);
      v := CallCandidate(e, route, body, w, slot, client, sink);
      ghost var called := Scene(client);
      Settle(e, cand, w, v, sink);
      CalledLeaves(e, route, w, v, before, called, Scene(client));
    }

    /** A candidate that has a route and a body: refused a slot, or called in it. */
    method Attend(
        e: Env, route: Route, body: string, cand: Indexes.Candidate, w: Weather, client: Attempt.Client,
        sink: Attempt.Sink?)
      returns (v: Verdict)
      requires Valid() && Outbound(e, route) == Some(body)
      requires sink != null <==> e.snap.archiveDir != ""
      requires sink != null ==> sink.data == ""
      modifies network, client, sink, counter, limiter, usage, log, log.buf, archive
      ensures Valid()
      ensures v == if Limiter.Refuses(old(limiter.inFlight), route.provider.name, route.provider.maxConcurrency) then Busy
                   else AttemptVerdict(e, route, w.upstream, old(client.body))
      ensures counter.history == old(counter.history) + SettleEvents(e, cand, w, v)
      ensures limiter.inFlight == old(limiter.inFlight)
      ensures Leaves(e, w, v, old(Scene(client)), Scene(client)) && (sink != null && !Terminal(v) ==> sink.data == "")
    {
      var pe := route.provider;
      var slot := limiter.Acquire(pe.name, pe.maxConcurrency);
      if slot.None? {
        return Busy;
      }
      v := Granted(e, route, body, cand, w, slot.value, client, sink);
      Limiter.ReleaseUndoesTake(old(limiter.inFlight), pe.name);
    }

    /** A candidate that the failure counter lets through. */
    method UseCandidate(
        e: Env, cand: Indexes.Candidate, w: Weather, client: Attempt.Client, sink: Attempt.Sink?)
      returns (v: Verdict)
      requires Valid()
      requires sink != null <==> e.snap.archiveDir != ""
      requires sink != null ==> sink.data == ""
      modifies network, client, sink, counter, limiter, usage, log, log.buf, archive
      ensures Valid()
      ensures v == JudgeRoute(e, old(limiter.inFlight), old(client.body), cand, w)
      ensures counter.history == old(counter.history) + SettleEvents(e, cand, w, v)
      ensures limiter.inFlight == old(limiter.inFlight)
      ensures Leaves(e, w, v, old(Scene(client)), Scene(client)) && (sink != null && !Terminal(v) ==> sink.data == "")
    {
      var route := RouteOf(e, cand);
      if route.None? {
        return Unroutable;
      }
      var body := Outbound(e, route.value);
      if body.None? {
        client.WriteHeader(400);
        client.Write(e.tools.errorBody(400));
        return Untranslatable;
      }
      v := Attend(e, route.value, body.value, cand, w, client, sink);
    }

    method AskToSkip(e: Env, cand: Indexes.Candidate, w: Weather) returns (skip: bool)
      requires counter.Valid()
      modifies counter
      ensures counter.Valid()
      ensures skip == SkipsCandidate(e, old(counter.history), cand, w)
      ensures counter.history == Expired(e, old(counter.history), cand, w)
      ensures skip ==> counter.history == old(counter.history)
    {
      skip := counter.ShouldSkip(
        e.req.apiKey, cand.internalID, e.snap.proxy.maxFailures, e.snap.proxy.failureResetSeconds, w.asked);
    }

    /** One turn of the candidate loop. */
    method TryCandidate(
        e: Env, cand: Indexes.Candidate, w: Weather, client: Attempt.Client, sink: Attempt.Sink?)
      returns (v: Verdict)
      requires Valid()
      requires sink != null <==> e.snap.archiveDir != ""
      requires sink != null ==> sink.data == ""
      modifies network, client, sink, counter, limiter, usage, log, log.buf, archive
      ensures Valid()
      ensures v == Judge(e, old(counter.history), old(limiter.inFlight), old(client.body), cand, w)
      ensures counter.history == HistoryAfter(e, old(counter.history), cand, w, v)
      ensures limiter.inFlight == old(limiter.inFlight)
      ensures Leaves(e, w, v, old(Scene(client)), Scene(client)) && (sink != null && !Terminal(v) ==> sink.data == "")
    {
      var skip := AskToSkip(e, cand, w);
      if skip {
        return Skipped;
      }
      v := UseCandidate(e, cand, w, client, sink);
    }

    method Turn(
        e: Env, ghost b: Scene, cands: seq<Indexes.Candidate>, ws: seq<Weather>, trail: seq<Verdict>,
        client: Attempt.Client, sink: Attempt.Sink?)
      returns (v: Verdict)
      requires Valid() && |trail| < |cands| == |ws|
      requires sink != null <==> e.snap.archiveDir != ""
      requires sink != null ==> sink.data == ""
      requires Between(e, b, Scene(client), cands, ws, trail)
      modifies network, client, sink, counter, limiter, usage, log, log.buf, archive
      ensures Valid()
      ensures Terminal(v) ==> Answered(e, b, Scene(client), cands, ws, trail + [v])
      ensures !Terminal(v) ==> Between(e, b, Scene(client), cands, ws, trail + [v])
      ensures sink != null && !Terminal(v) ==> sink.data == ""
    {
      ghost var now := Scene(client);
      v := TryCandidate(e, cands[|trail|], ws[|trail|], client, sink);
      TurnStep(e, b, now, Scene(client), cands, ws, trail, v);
    }

    /** The candidate loop: in order, until one ends the request; else 529 when some slot was refused and 502 when
        none was. */
    method RunCandidates(
        e: Env, cands: seq<Indexes.Candidate>, ws: seq<Weather>, client: Attempt.Client, sink: Attempt.Sink?)
      returns (trail: seq<Verdict>)
      requires Valid() && |ws| == |cands|
      requires sink != null <==> e.snap.archiveDir != ""
      requires sink != null ==> sink.data == ""
      modifies network, client, sink, counter, limiter, usage, log, log.buf, archive
      ensures Valid() && |trail| <= |cands|
      ensures Answered(e, old(Scene(client)), Scene(client), cands, ws, trail)
    {
      ghost var b := Scene(client);
      trail := [];
      var busy := false;
      LoopStart(e, b, cands, ws);
      while |trail| < |cands|
        invariant |trail| <= |cands| && Valid() && busy == AnyBusy(trail)
        invariant Between(e, b, Scene(client), cands, ws, trail)
        invariant sink != null ==> sink.data == ""
      {
        var v := Turn(e, b, cands, ws, trail, client, sink);
        BusySnoc(trail, v);
        trail := trail + [v];
        if Terminal(v) {
          return;
        }
        busy := busy || v.Busy?;
      }
      ghost var now := Scene(client);
      var status := if busy then 529 else 502;
      WriteError(e, status, client);
      LoopEnd(e, b, now, Scene(client), cands, ws, trail);
    }

    /** Is there a candidate that speaks the client's protocol or can be translated to? */
    method AnyUsable(e: Env, cands: seq<Indexes.Candidate>) returns (usable: bool)
      ensures usable <==> exists i :: 0 <= i < |cands| && RouteOf(e, cands[i]).Some?
    {
      var i := 0;
      while i < |cands|
        invariant 0 <= i <= |cands|
        invariant forall j :: 0 <= j < i ==> RouteOf(e, cands[j]).None?
      {
        if RouteOf(e, cands[i]).Some? {
          return true;
        }
        i := i + 1;
      }
      return false;
    }

    method WriteError(e: Env, status: int, client: Attempt.Client)
      modifies client
      ensures client.heads == old(client.heads) + [status]
      ensures client.body == old(client.body) + e.tools.errorBody(status)
    {
      client.WriteHeader(status);
      client.Write(e.tools.errorBody(status));
    }

    /** The checks before the loop: authorised protocol, a model, candidates, one of them usable. */
    method Admit(e: Env, ctx: Indexes.Context, client: Attempt.Client)
      returns (admitted: bool, cands: seq<Indexes.Candidate>)
      requires forall r :: r in ctx.wildcards ==> r.pattern != ""
      modifies client
      ensures admitted <==> Refusal(e, ctx).None?
      ensures admitted ==> cands == Indexes.Routed(ctx, e.req.alias) && unchanged(client)
      ensures !admitted ==>
                && client.heads == old(client.heads) + [Refusal(e, ctx).value]
                && client.body == old(client.body) + e.tools.errorBody(Refusal(e, ctx).value)
    {
      cands := [];
      if e.req.protocol !in ctx.allowed {
        WriteError(e, 403, client);
        return false, cands;
      }
      if !e.req.readable {
        WriteError(e, 400, client);
        return false, cands;
      }
      if e.req.alias == "" {
        WriteError(e, 400, client);
        return false, cands;
      }
      cands := Indexes.ResolveCandidates(ctx, e.req.alias);
      if |cands| == 0 {
        WriteError(e, 404, client);
        return false, cands;
      }
      admitted := AnyUsable(e, cands);
      if !admitted {
        WriteError(e, 501, client);
      }
    }

    /** ServeProxy: a request is answered exactly once, on every path. */
    method ServeProxy(e: Env, ctx: Indexes.Context, weather: nat -> Weather, client: Attempt.Client)
      returns (cands: seq<Indexes.Candidate>, trail: seq<Verdict>)
      requires Valid()
      requires forall r :: r in ctx.wildcards ==> r.pattern != ""
      modifies network, client, counter, limiter, usage, log, log.buf, archive
      ensures Valid()
      ensures |client.heads| == |old(client.heads)| + 1
      ensures Refusal(e, ctx).Some? ==>
                && client.heads == old(client.heads) + [Refusal(e, ctx).value]
                && client.body == old(client.body) + e.tools.errorBody(Refusal(e, ctx).value)
                && unchanged(network, counter, limiter, usage, log, archive)
      ensures Refusal(e, ctx).None? ==>
                && cands == Indexes.Routed(ctx, e.req.alias) && |trail| <= |cands|
                && Answered(e, old(Scene(client)), Scene(client), cands, seq(|cands|, weather), trail)
    {
      var admitted;
      admitted, cands := Admit(e, ctx, client);
      if !admitted {
        return cands, [];
      }
      var sink: Attempt.Sink? := null;
      if e.snap.archiveDir != "" {
        sink := new Attempt.Sink();
      }
      trail := RunCandidates(e, cands, seq(|cands|, weather), client, sink);
    }
  }

  /** The requests turned away before any candidate is tried, and how they are answered. */
  ghost function Refusal(e: Env, ctx: Indexes.Context): Option<int> {
    var cands := Indexes.Routed(ctx, e.req.alias);
    if e.req.protocol !in ctx.allowed then Some(403)
    else if !e.req.readable || e.req.alias == "" then Some(400)
    else if cands == [] then Some(404)
    else if forall i :: 0 <= i < |cands| ==> RouteOf(e, cands[i]).None? then Some(501)
    else None
  }

  // ---- a run of the loop, on values ----

  datatype Scene = SceneOf(
    sent: seq<Sent>,
    history: seq<Failover.Event>,
    inFlight: map<string, int>,
    usage: seq<Usage.Attempt>,
    log: seq<CallLog.Entry>,
    logOn: bool,
    accepted: seq<Archive.Record>,
    room: bool,
    heads: seq<int>,
    body: string)

  /** What one turn leaves in the recorders, the archive and the client: the attempt is recorded, and only a turn
      that ends the request has written anything. */
  ghost predicate Leaves(e: Env, w: Weather, v: Verdict, s: Scene, t: Scene) {
    && t.sent == s.sent + SentOf(e, v)
    && t.usage == s.usage + UsageOf(e, v)
    && t.logOn == s.logOn
    && t.log == s.log + (if s.logOn then LogOf(e, v, w.latency) else [])
    && t.accepted == s.accepted + (if s.room then RecordsOf(e, v, w.upstream) else [])
    && (!v.Served? ==> t.room == s.room)
    && t.heads == s.heads + HeadsOf(v)
    && t.body == BodyAfter(e, v, w.upstream, s.body)
  }

  /** What the client has been sent by an attempt on a route: one head and the whole answer, or nothing. */
  ghost predicate Writes(
      e: Env, route: Route, upstream: Attempt.Upstream, v: Verdict, heads: seq<int>, body: string, heads': seq<int>,
      body': string)
  {
    && (v.Failed? ==> heads' == heads && body' == body)
    && (v.Served? ==>
          && upstream.Responded? && v.info.status == upstream.status
          && heads' == heads + [upstream.status] && body' == Delivered(e, route, upstream, body))
  }

  /** A call and its records, before it is settled. */
  ghost predicate Called(e: Env, route: Route, w: Weather, v: Verdict, s: Scene, t: Scene) {
    && v == AttemptVerdict(e, route, w.upstream, s.body)
    && Writes(e, route, w.upstream, v, s.heads, s.body, t.heads, t.body)
    && t.sent == s.sent + SentOf(e, v)
    && t.usage == s.usage + UsageOf(e, v)
    && t.logOn == s.logOn
    && t.log == s.log + (if s.logOn then LogOf(e, v, w.latency) else [])
    && t.history == s.history && t.accepted == s.accepted && t.room == s.room
  }

  lemma CalledLeaves(e: Env, route: Route, w: Weather, v: Verdict, s: Scene, m: Scene, t: Scene)
    requires Called(e, route, w, v, s, m)
    requires t.(history := m.history, inFlight := m.inFlight, accepted := m.accepted, room := m.room) == m
    requires t.accepted == m.accepted + if m.room then RecordsOf(e, v, w.upstream) else []
    requires v.Failed? ==> t.room == m.room
    ensures Leaves(e, w, v, s, t)
  {
    assert v.info.route == route;
  }

  /** The recorders hold what they held and the attempts of the trail; the slots are as they were. */
  ghost predicate Kept(e: Env, s: Scene, t: Scene, ws: seq<Weather>, trail: seq<Verdict>)
    requires |trail| <= |ws|
  {
    && t.inFlight == s.inFlight
    && t.sent == s.sent + SentAll(e, trail)
    && t.usage == s.usage + UsageAll(e, trail)
    && t.logOn == s.logOn
    && t.log == s.log + if s.logOn then LogAll(e, ws, trail) else []
  }

  /** From `b` to `now`, between two turns: nothing has been written. */
  ghost predicate Between(
      e: Env, b: Scene, now: Scene, cands: seq<Indexes.Candidate>, ws: seq<Weather>, trail: seq<Verdict>)
    requires |trail| <= |cands| == |ws|
  {
    && Ahead(e, now.history, b.inFlight, b.body, cands, ws, trail,
             Serve(e, b.history, b.inFlight, b.body, cands, ws), HistoryRun(e, b.history, b.inFlight, b.body, cands, ws))
    && Kept(e, b, now, ws, trail)
    && now.accepted == b.accepted && now.room == b.room && now.heads == b.heads && now.body == b.body
  }

  /** From `b` to `now`, the request has been answered, once. */
  ghost predicate Answered(
      e: Env, b: Scene, now: Scene, cands: seq<Indexes.Candidate>, ws: seq<Weather>, trail: seq<Verdict>)
    requires |trail| <= |cands| == |ws|
  {
    && trail == Serve(e, b.history, b.inFlight, b.body, cands, ws)
    && now.history == HistoryRun(e, b.history, b.inFlight, b.body, cands, ws)
    && Kept(e, b, now, ws, trail)
    && now.heads == b.heads + [Answer(trail)]
    && now.body == Received(e, trail, ws, b.body)
    && now.accepted == b.accepted + if b.room then Archived(e, trail, ws) else []
  }

  lemma LoopStart(e: Env, b: Scene, cands: seq<Indexes.Candidate>, ws: seq<Weather>)
    requires |ws| == |cands|
    ensures Between(e, b, b, cands, ws, [])
  {
    assert cands[0..] == cands && ws[0..] == ws;
  }

  lemma TurnStep(
      e: Env, b: Scene, now: Scene, next: Scene, cands: seq<Indexes.Candidate>, ws: seq<Weather>,
      trail: seq<Verdict>, v: Verdict)
    requires |trail| < |cands| == |ws|
    requires Between(e, b, now, cands, ws, trail)
    requires v == Judge(e, now.history, now.inFlight, now.body, cands[|trail|], ws[|trail|])
    requires next.history == HistoryAfter(e, now.history, cands[|trail|], ws[|trail|], v)
    requires next.inFlight == now.inFlight && Leaves(e, ws[|trail|], v, now, next)
    ensures Terminal(v) ==> Answered(e, b, next, cands, ws, trail + [v])
    ensures !Terminal(v) ==> Between(e, b, next, cands, ws, trail + [v])
  {
    AheadStep(e, now.history, b.inFlight, b.body, cands, ws, trail,
              Serve(e, b.history, b.inFlight, b.body, cands, ws), HistoryRun(e, b.history, b.inFlight, b.body, cands, ws), v);
    KeptStep(e, b, now, next, cands, ws, trail, v);
    if Terminal(v) {
      EndingStep(e, b, next, ws, trail, v);
    }
  }

  lemma KeptStep(
      e: Env, b: Scene, now: Scene, next: Scene, cands: seq<Indexes.Candidate>, ws: seq<Weather>,
      trail: seq<Verdict>, v: Verdict)
    requires |trail| < |ws| && Kept(e, b, now, ws, trail)
    requires next.inFlight == now.inFlight && Leaves(e, ws[|trail|], v, now, next)
    ensures Kept(e, b, next, ws, trail + [v])
  {
    RecordsSnoc(e, ws, trail, v);
    Regroup(b.sent, SentAll(e, trail), SentOf(e, v));
    Regroup(b.usage, UsageAll(e, trail), UsageOf(e, v));
    Regroup(b.log, LogAll(e, ws, trail), LogOf(e, v, ws[|trail|].latency));
  }

  lemma EndingStep(e: Env, b: Scene, next: Scene, ws: seq<Weather>, trail: seq<Verdict>, v: Verdict)
    requires |trail| < |ws| && Terminal(v)
    requires next.heads == b.heads + HeadsOf(v) && next.body == BodyAfter(e, v, ws[|trail|].upstream, b.body)
    requires next.accepted == b.accepted + if b.room then RecordsOf(e, v, ws[|trail|].upstream) else []
    ensures next.heads == b.heads + [Answer(trail + [v])]
    ensures next.body == Received(e, trail + [v], ws, b.body)
    ensures next.accepted == b.accepted + if b.room then Archived(e, trail + [v], ws) else []
  {
    var all := trail + [v];
    assert all[|all| - 1] == v;
  }

  lemma LoopEnd(
      e: Env, b: Scene, now: Scene, next: Scene, cands: seq<Indexes.Candidate>, ws: seq<Weather>, trail: seq<Verdict>)
    requires |trail| == |cands| == |ws|
    requires Between(e, b, now, cands, ws, trail)
    requires
      var status := if AnyBusy(trail) then 529 else 502;
      next == now.(heads := now.heads + [status], body := now.body + e.tools.errorBody(status))
    ensures Answered(e, b, next, cands, ws, trail)
  {
    assert trail == [] || !Terminal(trail[|trail| - 1]);
  }

  /** The verdicts of a request, one per candidate until one ends it. */
  function Serve(
      e: Env, history: seq<Failover.Event>, inFlight: map<string, int>, before: string,
      cands: seq<Indexes.Candidate>, ws: seq<Weather>): (trail: seq<Verdict>)
    requires |ws| == |cands|
    ensures |trail| <= |cands|
    decreases |cands|
  {
    if cands == [] then []
    else
      var v := Judge(e, history, inFlight, before, cands[0], ws[0]);
      if Terminal(v) then [v]
      else [v] + Serve(e, HistoryAfter(e, history, cands[0], ws[0], v), inFlight, before, cands[1..], ws[1..])
  }

  /** The failure counter's history after a request. */
  function HistoryRun(
      e: Env, history: seq<Failover.Event>, inFlight: map<string, int>, before: string,
      cands: seq<Indexes.Candidate>, ws: seq<Weather>): seq<Failover.Event>
    requires |ws| == |cands|
    decreases |cands|
  {
    if cands == [] then history
    else
      var v := Judge(e, history, inFlight, before, cands[0], ws[0]);
      var after := HistoryAfter(e, history, cands[0], ws[0], v);
      if Terminal(v) then after else HistoryRun(e, after, inFlight, before, cands[1..], ws[1..])
  }

  predicate AnyBusy(trail: seq<Verdict>) {
    exists i :: 0 <= i < |trail| && trail[i].Busy?
  }

  /** The status a request is answered with. */
  function Answer(trail: seq<Verdict>): int {
    if trail != [] && Terminal(trail[|trail| - 1]) then HeadsOf(trail[|trail| - 1])[0]
    else if AnyBusy(trail) then 529
    else 502
  }

  function Received(e: Env, trail: seq<Verdict>, ws: seq<Weather>, before: string): string
    requires |trail| <= |ws|
  {
    if trail != [] && Terminal(trail[|trail| - 1]) then
      BodyAfter(e, trail[|trail| - 1], ws[|trail| - 1].upstream, before)
    else before + e.tools.errorBody(Answer(trail))
  }

  /** Everything a request sends upstream, attempt by attempt. */
  function SentAll(e: Env, trail: seq<Verdict>): seq<Sent> {
    if trail == [] then [] else SentAll(e, trail[..|trail| - 1]) + SentOf(e, trail[|trail| - 1])
  }

  function UsageAll(e: Env, trail: seq<Verdict>): seq<Usage.Attempt> {
    if trail == [] then [] else UsageAll(e, trail[..|trail| - 1]) + UsageOf(e, trail[|trail| - 1])
  }

  function LogAll(e: Env, ws: seq<Weather>, trail: seq<Verdict>): seq<CallLog.Entry>
    requires |trail| <= |ws|
  {
    if trail == [] then []
    else LogAll(e, ws, trail[..|trail| - 1]) + LogOf(e, trail[|trail| - 1], ws[|trail| - 1].latency)
  }

  /** What a request hands to the archive: at most one record, of the verdict that ended it. */
  function Archived(e: Env, trail: seq<Verdict>, ws: seq<Weather>): seq<Archive.Record>
    requires |trail| <= |ws|
  {
    if trail == [] then [] else RecordsOf(e, trail[|trail| - 1], ws[|trail| - 1].upstream)
  }

  lemma BusySnoc(trail: seq<Verdict>, v: Verdict)
    ensures AnyBusy(trail + [v]) == (AnyBusy(trail) || v.Busy?)
  {
    var all := trail + [v];
    assert all[|trail|] == v;
    assert forall i :: 0 <= i < |trail| ==> all[i] == trail[i];
  }

  lemma RecordsSnoc(e: Env, ws: seq<Weather>, trail: seq<Verdict>, v: Verdict)
    requires |trail| < |ws|
    ensures SentAll(e, trail + [v]) == SentAll(e, trail) + SentOf(e, v)
    ensures UsageAll(e, trail + [v]) == UsageAll(e, trail) + UsageOf(e, v)
    ensures LogAll(e, ws, trail + [v]) == LogAll(e, ws, trail) + LogOf(e, v, ws[|trail|].latency)
  {
    assert (trail + [v])[..|trail|] == trail;
  }

  /** The verdicts so far did not end the request, and what is still to come completes the run. */
  ghost predicate Ahead(
      e: Env, now: seq<Failover.Event>, inFlight: map<string, int>, before: string,
      cands: seq<Indexes.Candidate>, ws: seq<Weather>, trail: seq<Verdict>, whole: seq<Verdict>,
      end: seq<Failover.Event>)
    requires |ws| == |cands| && |trail| <= |cands|
  {
    var i := |trail|;
    && (forall v :: v in trail ==> !Terminal(v))
    && trail + Serve(e, now, inFlight, before, cands[i..], ws[i..]) == whole
    && HistoryRun(e, now, inFlight, before, cands[i..], ws[i..]) == end
  }

  lemma AheadStep(
      e: Env, now: seq<Failover.Event>, inFlight: map<string, int>, before: string,
      cands: seq<Indexes.Candidate>, ws: seq<Weather>, trail: seq<Verdict>, whole: seq<Verdict>,
      end: seq<Failover.Event>, v: Verdict)
    requires |ws| == |cands| && |trail| < |cands|
    requires Ahead(e, now, inFlight, before, cands, ws, trail, whole, end)
    requires v == Judge(e, now, inFlight, before, cands[|trail|], ws[|trail|])
    ensures
      var after := HistoryAfter(e, now, cands[|trail|], ws[|trail|], v);
      if Terminal(v) then trail + [v] == whole && after == end
      else Ahead(e, after, inFlight, before, cands, ws, trail + [v], whole, end)
  {
    var i := |trail|;
    ServeAt(e, now, inFlight, before, cands, ws, i, v);
    var after := HistoryAfter(e, now, cands[i], ws[i], v);
    if !Terminal(v) {
      var rest := Serve(e, after, inFlight, before, cands[i + 1..], ws[i + 1..]);
      Regroup(trail, [v], rest);
      assert |trail + [v]| == i + 1;
      assert trail + [v] + rest == whole;
      assert forall u :: u in trail + [v] ==> u in trail || u == v;
    }
  }

  lemma ServeAt(
      e: Env, history: seq<Failover.Event>, inFlight: map<string, int>, before: string,
      cands: seq<Indexes.Candidate>, ws: seq<Weather>, i: nat, v: Verdict)
    requires i < |cands| == |ws| && v == Judge(e, history, inFlight, before, cands[i], ws[i])
    ensures
      var after := HistoryAfter(e, history, cands[i], ws[i], v);
      if Terminal(v) then
        && Serve(e, history, inFlight, before, cands[i..], ws[i..]) == [v]
        && HistoryRun(e, history, inFlight, before, cands[i..], ws[i..]) == after
      else
        && Serve(e, history, inFlight, before, cands[i..], ws[i..]) ==
             [v] + Serve(e, after, inFlight, before, cands[i + 1..], ws[i + 1..])
        && HistoryRun(e, history, inFlight, before, cands[i..], ws[i..]) ==
             HistoryRun(e, after, inFlight, before, cands[i + 1..], ws[i + 1..])
  {
    Suffix(cands, i);
    Suffix(ws, i);
    ServeFirst(e, history, inFlight, before, cands[i], cands[i + 1..], ws[i], ws[i + 1..], v);
  }

  lemma Suffix<T>(s: seq<T>, i: nat)
    requires i < |s|
    ensures s[i..] == [s[i]] + s[i + 1..]
  {
  }

  lemma ServeFirst(
      e: Env, history: seq<Failover.Event>, inFlight: map<string, int>, before: string, cand: Indexes.Candidate,
      cands: seq<Indexes.Candidate>, w: Weather, ws: seq<Weather>, v: Verdict)
    requires |ws| == |cands| && v == Judge(e, history, inFlight, before, cand, w)
    ensures
      var after := HistoryAfter(e, history, cand, w, v);
      if Terminal(v) then
        && Serve(e, history, inFlight, before, [cand] + cands, [w] + ws) == [v]
        && HistoryRun(e, history, inFlight, before, [cand] + cands, [w] + ws) == after
      else
        && Serve(e, history, inFlight, before, [cand] + cands, [w] + ws) ==
             [v] + Serve(e, after, inFlight, before, cands, ws)
        && HistoryRun(e, history, inFlight, before, [cand] + cands, [w] + ws) ==
             HistoryRun(e, after, inFlight, before, cands, ws)
  {
    assert ([cand] + cands)[1..] == cands && ([w] + ws)[1..] == ws;
  }

  function HeadsOf(v: Verdict): seq<int> {
    if v.Untranslatable? then [400] else if v.Served? then [v.info.status] else []
  }

  function BodyAfter(e: Env, v: Verdict, upstream: Attempt.Upstream, before: string): string {
    if v.Untranslatable? then before + e.tools.errorBody(400)
    else if v.Served? && upstream.Responded? then Delivered(e, v.info.route, upstream, before)
    else before
  }

  // ---- what every request obeys ----

  /** Candidates are taken in order, at most once each; only the last verdict ends the request, and the list is
      exhausted otherwise. */
  lemma {:induction false} TriedInOrder(
      e: Env, history: seq<Failover.Event>, inFlight: map<string, int>, before: string,
      cands: seq<Indexes.Candidate>, ws: seq<Weather>)
    requires |ws| == |cands|
    ensures
      var trail := Serve(e, history, inFlight, before, cands, ws);
      && (forall i :: 0 <= i < |trail| - 1 ==> !Terminal(trail[i]))
      && (|trail| < |cands| ==> trail != [] && Terminal(trail[|trail| - 1]))
      && (forall i :: 0 <= i < |trail| && !trail[i].Skipped? ==>
            trail[i] == JudgeRoute(e, inFlight, before, cands[i], ws[i]))
    decreases |cands|
  {
    if cands != [] {
      var v := Judge(e, history, inFlight, before, cands[0], ws[0]);
      if !Terminal(v) {
        var after := HistoryAfter(e, history, cands[0], ws[0], v);
        TriedInOrder(e, after, inFlight, before, cands[1..], ws[1..]);
        var rest := Serve(e, after, inFlight, before, cands[1..], ws[1..]);
        var trail := [v] + rest;
        assert trail == Serve(e, history, inFlight, before, cands, ws);
        forall i | 0 <= i < |trail| && !trail[i].Skipped?
          ensures trail[i] == JudgeRoute(e, inFlight, before, cands[i], ws[i])
        {
          if i > 0 {
            assert trail[i] == rest[i - 1];
          }
        }
      }
    }
  }

  /** The answer, when no request translation failed: the status of the one committed attempt; with none committed,
      529 exactly when some slot was refused and 502 exactly when none was. */
  lemma AnswerIsExact(
      e: Env, history: seq<Failover.Event>, inFlight: map<string, int>, before: string,
      cands: seq<Indexes.Candidate>, ws: seq<Weather>, trail: seq<Verdict>)
    requires |ws| == |cands| && trail == Serve(e, history, inFlight, before, cands, ws)
    requires forall v :: v in trail ==> !v.Untranslatable?
    ensures
      var served := exists i :: 0 <= i < |trail| && trail[i].Served?;
      && (served ==> trail[|trail| - 1].Served? && Answer(trail) == trail[|trail| - 1].info.status)
      && (!served ==> |trail| == |cands|)
      && (!served ==> Answer(trail) == if AnyBusy(trail) then 529 else 502)
  {
    TriedInOrder(e, history, inFlight, before, cands, ws);
    EndingIsExact(trail, cands);
  }

  lemma EndingIsExact(trail: seq<Verdict>, cands: seq<Indexes.Candidate>)
    requires |trail| <= |cands|
    requires forall i :: 0 <= i < |trail| - 1 ==> !Terminal(trail[i])
    requires |trail| < |cands| ==> trail != [] && Terminal(trail[|trail| - 1])
    requires forall v :: v in trail ==> !v.Untranslatable?
    ensures
      var served := exists i :: 0 <= i < |trail| && trail[i].Served?;
      && (served ==> trail[|trail| - 1].Served? && Answer(trail) == trail[|trail| - 1].info.status)
      && (!served ==> |trail| == |cands|)
      && (!served ==> Answer(trail) == if AnyBusy(trail) then 529 else 502)
  {
    if trail != [] {
      assert trail[|trail| - 1] in trail;
    }
  }

  /** The failures of a pair in a history. */
  function FailuresOf(history: seq<Failover.Event>, k: Failover.CounterKey): nat {
    if history == [] then 0
    else
      var last := history[|history| - 1];
      FailuresOf(history[..|history| - 1], k) + if last.Failed? && last.key == k then 1 else 0
  }

  /** The attempts of a pair that wrote nothing. */
  function FailedAttempts(e: Env, trail: seq<Verdict>, cands: seq<Indexes.Candidate>, k: Failover.CounterKey): nat
    requires |trail| <= |cands|
  {
    if trail == [] then 0
    else
      (if trail[0].Failed? && KeyOf(e, cands[0]) == k then 1 else 0) + FailedAttempts(e, trail[1..], cands[1..], k)
  }

  lemma FailuresSnoc(history: seq<Failover.Event>, ev: Failover.Event, k: Failover.CounterKey)
    ensures FailuresOf(history + [ev], k) == FailuresOf(history, k) + if ev.Failed? && ev.key == k then 1 else 0
  {
    assert (history + [ev])[..|history|] == history;
  }

  lemma FailuresAfter(
      e: Env, history: seq<Failover.Event>, cand: Indexes.Candidate, w: Weather, v: Verdict, k: Failover.CounterKey)
    ensures FailuresOf(HistoryAfter(e, history, cand, w, v), k) ==
            FailuresOf(history, k) + if v.Failed? && KeyOf(e, cand) == k then 1 else 0
  {
    var expiry := Failover.Expiry(history, KeyOf(e, cand), e.snap.proxy.failureResetSeconds, w.asked);
    var mid, events := history + expiry, SettleEvents(e, cand, w, v);
    if expiry != [] {
      FailuresSnoc(history, expiry[0], k);
    } else {
      assert mid == history;
    }
    if events != [] {
      FailuresSnoc(mid, events[0], k);
    } else {
      assert mid + events == mid;
    }
  }

  /** Every attempt that wrote nothing is counted as one failure of its pair; skipped, busy and unroutable
      candidates are not counted. */
  lemma {:induction false} FailuresAreCountedOnce(
      e: Env, history: seq<Failover.Event>, inFlight: map<string, int>, before: string,
      cands: seq<Indexes.Candidate>, ws: seq<Weather>, k: Failover.CounterKey)
    requires |ws| == |cands|
    ensures FailuresOf(HistoryRun(e, history, inFlight, before, cands, ws), k) ==
            FailuresOf(history, k) + FailedAttempts(e, Serve(e, history, inFlight, before, cands, ws), cands, k)
    decreases |cands|
  {
    if cands != [] {
      var v := Judge(e, history, inFlight, before, cands[0], ws[0]);
      var after := HistoryAfter(e, history, cands[0], ws[0], v);
      FailuresAfter(e, history, cands[0], ws[0], v, k);
      var trail := Serve(e, history, inFlight, before, cands, ws);
      if !Terminal(v) {
        FailuresAreCountedOnce(e, after, inFlight, before, cands[1..], ws[1..], k);
        assert trail[1..] == Serve(e, after, inFlight, before, cands[1..], ws[1..]);
      } else {
        assert trail[1..] == [];
      }
    }
  }

  /** A passthrough stream is delivered as one rewrite of all that was consumed of it. */
  lemma PassthroughDelivery(e: Env, route: Route, upstream: Attempt.Upstream, before: string)
    requires e.req.isStream && route.translator.None? && upstream.Responded?
    requires !Attempt.PassesError(JobOf(e, route), upstream)
    ensures Delivered(e, route, upstream, before) ==
            before + Attempt.Rewrites(JobOf(e, route), Attempt.Consumed(upstream.body, upstream.ending))
  {
    var text := Attempt.Consumed(upstream.body, upstream.ending);
    Attempt.PassthroughIsWholeRewrite(JobOf(e, route), text, Attempt.Start(before));
  }

  lemma StreamServedIs(e: Env, inFlight: map<string, int>, before: string, cand: Indexes.Candidate, w: Weather)
    requires e.req.isStream && JudgeRoute(e, inFlight, before, cand, w).Served?
    ensures
      var info := JudgeRoute(e, inFlight, before, cand, w).info;
      && w.upstream.Responded? && info.status == w.upstream.status
      && (Is2xx(info.status) ==> !Attempt.PassesError(JobOf(e, info.route), w.upstream))
  {
  }

  /** A served candidate was answered by its upstream. */
  lemma ServedWas(
      e: Env, inFlight: map<string, int>, before: string, cand: Indexes.Candidate, w: Weather, v: Verdict)
    requires v == JudgeRoute(e, inFlight, before, cand, w) && v.Served?
    ensures w.upstream.Responded? && v.info.status == w.upstream.status
  {
  }

  /** A turn whose stream is archived: it was served, and the record holds all that was consumed. */
  ghost predicate StreamArchived(
      e: Env, inFlight: map<string, int>, before: string, cand: Indexes.Candidate, w: Weather, v: Verdict,
      received: string, response: Archive.Body)
  {
    && e.req.isStream
    && v == JudgeRoute(e, inFlight, before, cand, w) && v.Served? && Is2xx(v.info.status) && w.upstream.Responded?
    && received == Delivered(e, v.info.route, w.upstream, before)
    && response == Archive.Stream(Attempt.Consumed(w.upstream.body, w.upstream.ending))
  }

  lemma LastArchived(
      e: Env, inFlight: map<string, int>, before: string, cand: Indexes.Candidate, ws: seq<Weather>, trail: seq<Verdict>)
    requires 0 < |trail| <= |ws| && e.req.isStream && Archived(e, trail, ws) != []
    requires trail[|trail| - 1].Skipped? || trail[|trail| - 1] == JudgeRoute(e, inFlight, before, cand, ws[|trail| - 1])
    ensures
      var n := |trail| - 1;
      StreamArchived(e, inFlight, before, cand, ws[n], trail[n], Received(e, trail, ws, before),
                     Archived(e, trail, ws)[0].response)
  {
  }

  lemma ArchivedTurn(
      e: Env, history: seq<Failover.Event>, inFlight: map<string, int>, before: string,
      cands: seq<Indexes.Candidate>, ws: seq<Weather>, trail: seq<Verdict>)
    requires |ws| == |cands| && e.req.isStream && trail == Serve(e, history, inFlight, before, cands, ws)
    requires Archived(e, trail, ws) != []
    ensures
      var n := |trail| - 1;
      StreamArchived(e, inFlight, before, cands[n], ws[n], trail[n], Received(e, trail, ws, before),
                     Archived(e, trail, ws)[0].response)
  {
    TriedInOrder(e, history, inFlight, before, cands, ws);
    LastArchived(e, inFlight, before, cands[|trail| - 1], ws, trail);
  }

  /** What a passthrough client received is one rewrite of the stream archived. */
  ghost predicate ArchivedAsSent(e: Env, v: Verdict, before: string, received: string, response: Archive.Body)
    requires v.Served?
  {
    v.info.route.translator.None? ==>
      && response.Stream?
      && received == before + Attempt.Rewrites(JobOf(e, v.info.route), response.text)
  }

  lemma StreamIsAsSent(
      e: Env, inFlight: map<string, int>, before: string, cand: Indexes.Candidate, w: Weather, v: Verdict,
      received: string, response: Archive.Body)
    requires StreamArchived(e, inFlight, before, cand, w, v, received, response)
    ensures ArchivedAsSent(e, v, before, received, response)
  {
    StreamServedIs(e, inFlight, before, cand, w);
    if v.info.route.translator.None? {
      PassthroughDelivery(e, v.info.route, w.upstream, before);
    }
  }

  /** At most one archive record, only for a committed 2xx; and for a passthrough stream what the client received is
      one rewrite of exactly the stream archived, with nothing of earlier attempts in either. */
  lemma ArchiveMatchesDelivery(
      e: Env, history: seq<Failover.Event>, inFlight: map<string, int>, before: string,
      cands: seq<Indexes.Candidate>, ws: seq<Weather>, trail: seq<Verdict>)
    requires |ws| == |cands| && trail == Serve(e, history, inFlight, before, cands, ws)
    ensures
      var records := Archived(e, trail, ws);
      && |records| <= 1
      && (records != [] ==> Is2xx(Answer(trail)) && trail[|trail| - 1].Served?)
      && (records != [] && e.req.isStream ==>
            ArchivedAsSent(e, trail[|trail| - 1], before, Received(e, trail, ws, before), records[0].response))
  {
    if Archived(e, trail, ws) != [] && e.req.isStream {
      var n := |trail| - 1;
      ArchivedTurn(e, history, inFlight, before, cands, ws, trail);
      StreamIsAsSent(e, inFlight, before, cands[n], ws[n], trail[n], Received(e, trail, ws, before),
                     Archived(e, trail, ws)[0].response);
    }
  }
}
