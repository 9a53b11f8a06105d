/** With model rewriting on, the client's alias is the only model name a client ever reads: internal/modelrewrite as
    internal/pipeline uses it, over whole streams, whole bodies and whole requests. */
module AliasRelay {
  import opened Wrappers
  import opened Strings
  import opened Lists
  import Streams
  import ModelRewrite
  import Attempt
  import Failover
  import Indexes
  import Pipeline

  /** A translator whose fragments end their lines, and whose whole responses are JSON when the upstream's are. */
  ghost predicate WellFormed(json: ModelRewrite.Json, pair: Attempt.Pair) {
    && (forall chunk, st :: pair.chunk(chunk, st).0.Some? ==> Attempt.EndsLine(pair.chunk(chunk, st).0.value))
    && (forall body :: json.valid(body) && pair.response(body).Some? ==> json.valid(pair.response(body).value))
  }

  lemma {:induction false} FragsEndLines(
      json: ModelRewrite.Json, pair: Attempt.Pair, st: Streams.State, chunks: seq<Option<string>>)
    requires WellFormed(json, pair)
    ensures forall frag :: frag in Attempt.Frags(pair, st, chunks) ==> Attempt.EndsLine(frag)
    decreases |chunks|
  {
    if chunks != [] {
      FragsEndLines(json, pair, pair.chunk(chunks[0], st).1, chunks[1..]);
    }
  }

  /** A relayed stream, passed through or translated, shows no model name but the alias. */
  lemma StreamShowsOnlyAlias(job: Attempt.Job, text: string)
    requires ModelRewrite.Lawful(job.json) && ModelRewrite.Readable(job.json) && job.rewrite
    requires job.pair.Some? ==> WellFormed(job.json, job.pair.value)
    ensures ModelRewrite.OnlyAlias(
              job.json, Attempt.FlowLines(job, Attempt.Lines(text), Attempt.Start("")).sent, job.alias)
  {
    var lines, start := Attempt.Lines(text), Attempt.Start("");
    var raw := text;
    if job.pair.None? {
      Attempt.PassthroughIsWholeRewrite(job, text, start);
    } else {
      var pair := job.pair.value;
      FragsEndLines(job.json, pair, Streams.INITIAL, Attempt.Chunks(job, lines));
      Attempt.TranslationIsWholeRewrite(job, lines, start);
      raw := Concat(Attempt.Frags(pair, Streams.INITIAL, Attempt.Chunks(job, lines)));
    }
    assert "" + Attempt.Rewrites(job, raw) == ModelRewrite.Rewritten(job.json, raw, job.alias);
    ModelRewrite.RewrittenOnlyAlias(job.json, raw, job.alias);
  }

  /** Every model field of the body shows the alias. */
  predicate BodyShowsOnly(json: ModelRewrite.Json, body: string, alias: string) {
    forall p :: p in ModelRewrite.MODEL_PATHS && json.has(body, p) ==> json.value(body, p) == alias
  }

  lemma WholeBodyShowsOnlyAlias(e: Pipeline.Env, job: Attempt.Job, upstream: Attempt.Upstream)
    requires ModelRewrite.Lawful(e.tools.json) && e.snap.proxy.rewriteModel
    requires upstream.Responded? && e.tools.json.valid(upstream.body)
    requires job.pair.Some? ==> WellFormed(e.tools.json, job.pair.value)
    ensures BodyShowsOnly(e.tools.json, Pipeline.WholeBody(e, job, upstream), e.req.alias)
  {
    var translated :=
      if job.pair.Some? && Pipeline.Is2xx(upstream.status) then job.pair.value.response(upstream.body) else None;
    var body := if translated.Some? then translated.value else upstream.body;
    ModelRewrite.RewriteSetsEveryModelField(e.tools.json, body, e.req.alias);
  }

  /** The client reads no model name but its own. */
  ghost predicate ReadsOnlyAlias(e: Pipeline.Env, received: string) {
    if e.req.isStream then ModelRewrite.OnlyAlias(e.tools.json, received, e.req.alias)
    else BodyShowsOnly(e.tools.json, received, e.req.alias)
  }

  lemma TurnShowsOnlyAlias(
      e: Pipeline.Env, inFlight: map<string, int>, cand: Indexes.Candidate, w: Pipeline.Weather, v: Pipeline.Verdict)
    requires ModelRewrite.Lawful(e.tools.json) && ModelRewrite.Readable(e.tools.json) && e.snap.proxy.rewriteModel
    requires forall k :: k in e.tools.translators ==> WellFormed(e.tools.json, e.tools.translators[k].upstream)
    requires v == Pipeline.JudgeRoute(e, inFlight, "", cand, w) && v.Served? && Pipeline.Is2xx(v.info.status)
    requires w.upstream.Responded? && (!e.req.isStream ==> e.tools.json.valid(w.upstream.body))
    ensures ReadsOnlyAlias(e, Pipeline.Delivered(e, v.info.route, w.upstream, ""))
  {
    var route := v.info.route;
    var job := Pipeline.JobOf(e, route);
    assert Pipeline.RouteOf(e, cand) == Some(route);
    assert job.pair.Some? ==> WellFormed(job.json, job.pair.value);
    if e.req.isStream {
      Pipeline.StreamServedIs(e, inFlight, "", cand, w);
      StreamShowsOnlyAlias(job, Attempt.Consumed(w.upstream.body, w.upstream.ending));
    } else {
      WholeBodyShowsOnlyAlias(e, job, w.upstream);
      assert "" + Pipeline.WholeBody(e, job, w.upstream) == Pipeline.WholeBody(e, job, w.upstream);
    }
  }

  /** Over a whole request, failed attempts and all: whatever provider served it under whatever name, the client that
      is answered with a 2xx reads no model name but the alias it asked for. */
  lemma ClientReadsOnlyAlias(
      e: Pipeline.Env, history: seq<Failover.Event>, inFlight: map<string, int>, cands: seq<Indexes.Candidate>,
      ws: seq<Pipeline.Weather>, trail: seq<Pipeline.Verdict>)
    requires |ws| == |cands| && trail == Pipeline.Serve(e, history, inFlight, "", cands, ws)
    requires ModelRewrite.Lawful(e.tools.json) && ModelRewrite.Readable(e.tools.json) && e.snap.proxy.rewriteModel
    requires forall k :: k in e.tools.translators ==> WellFormed(e.tools.json, e.tools.translators[k].upstream)
    requires !e.req.isStream ==> forall w :: w in ws && w.upstream.Responded? ==> e.tools.json.valid(w.upstream.body)
    requires Pipeline.Is2xx(Pipeline.Answer(trail))
    ensures ReadsOnlyAlias(e, Pipeline.Received(e, trail, ws, ""))
  {
    var n := |trail| - 1;
    Pipeline.TriedInOrder(e, history, inFlight, "", cands, ws);
    Pipeline.ServedWas(e, inFlight, "", cands[n], ws[n], trail[n]);
    assert ws[n] in ws;
    TurnShowsOnlyAlias(e, inFlight, cands[n], ws[n], trail[n]);
  }
}
