/** A whole answer from end to end: what a client reads of what its upstream said, over a whole request. */
module ReplyRelay {
  import opened Wrappers
  import opened Replies
  import Responses
  import ModelRewrite
  import OpenAI
  import Streams
  import TextRelay
  import Attempt
  import Failover
  import Indexes
  import Pipeline
  import Records

  /** How a body's text is read and written, in each protocol. */
  datatype Reader = Reader(json: OpenAI.Json, read: (Streams.Protocol, string) -> Reply, write: Reply -> string)

  /** An answer, whoever's name it bears. */
  function Unnamed(x: Answer): Answer {
    x.(model := "")
  }

  function Reads(r: Reader, p: Streams.Protocol, body: string): Answer {
    AnswerOf(r.json, r.read(p, body))
  }

  /** The laws of the JSON library on whole answers: what is written reads back as the same answer, and setting model
      fields changes nothing but the model. */
  ghost predicate Legible(tools: Pipeline.Tools, r: Reader) {
    && (forall reply :: ReadsBack(r, reply))
    && (forall p, body, alias :: RewriteKeeps(tools, r, p, body, alias))
    && (forall p, body :: ProtocolOf(r.read(p, body)) == p)
  }

  predicate ReadsBack(r: Reader, reply: Reply) {
    Reads(r, ProtocolOf(reply), r.write(reply)) == AnswerOf(r.json, reply)
  }

  predicate RewriteKeeps(tools: Pipeline.Tools, r: Reader, p: Streams.Protocol, body: string, alias: string) {
    Unnamed(Reads(r, p, ModelRewrite.RewriteModelFields(tools.json, body, alias))) == Unnamed(Reads(r, p, body))
  }

  /** The registry holds the response sides of internal/translate/pairs.go. */
  ghost predicate Registered(tools: Pipeline.Tools, r: Reader) {
    forall k :: k in tools.translators ==>
      && k.0 in TextRelay.PROTOCOLS && k.1 in TextRelay.PROTOCOLS && k.0 != k.1
      && forall body :: tools.translators[k].upstream.response(body) ==
                        Some(r.write(Translated(r.json, TextRelay.PROTOCOLS[k.0], r.read(TextRelay.PROTOCOLS[k.1], body))))
  }

  /** What a client is to read of an upstream's answer. */
  ghost function Due(r: Reader, to: Streams.Protocol, from: Streams.Protocol, body: string): Answer {
    var x := Reads(r, from, body);
    if to == from then x
    else if to.AnthropicProtocol? && !CallsAreJSON(r.json, x.calls) then
      AnswerOf(r.json, A(Responses.NO_REPLY))
    else Carried(r.json, to, x)
  }

  /** A translated reply reads as it should. */
  lemma ReplyIsDue(r: Reader, to: Streams.Protocol, reply: Reply)
    requires to != ProtocolOf(reply)
    ensures ProtocolOf(Translated(r.json, to, reply)) == to
    ensures AnswerOf(r.json, Translated(r.json, to, reply)) ==
            if to.AnthropicProtocol? && !CallsAreJSON(r.json, AnswerOf(r.json, reply).calls) then
              AnswerOf(r.json, A(Responses.NO_REPLY))
            else Carried(r.json, to, AnswerOf(r.json, reply))
  {
    TranslationKeepsAnswer(r.json, to, reply);
  }

  lemma TranslatedIsDue(tools: Pipeline.Tools, r: Reader, key: (string, string), body: string)
    requires Legible(tools, r) && Registered(tools, r) && key in tools.translators
    ensures tools.translators[key].upstream.response(body).Some?
    ensures
      var to, from := TextRelay.PROTOCOLS[key.0], TextRelay.PROTOCOLS[key.1];
      Reads(r, to, tools.translators[key].upstream.response(body).value) == Due(r, to, from, body)
  {
    var to, from := TextRelay.PROTOCOLS[key.0], TextRelay.PROTOCOLS[key.1];
    var reply := r.read(from, body);
    assert ProtocolOf(reply) == from;
    ReplyIsDue(r, to, reply);
    assert ReadsBack(r, Translated(r.json, to, reply));
  }

  /** A 2xx that is read whole, as the client gets it. */
  lemma WholeIsDue(e: Pipeline.Env, r: Reader, x: Pipeline.Sent, u: Attempt.Upstream, bytes: string)
    requires Legible(e.tools, r) && Registered(e.tools, r)
    requires u.Responded? && 200 <= u.status < 300 && Records.WholeIs(e, x, u, bytes)
    requires e.req.protocol in TextRelay.PROTOCOLS && x.provider.protocol in TextRelay.PROTOCOLS
    requires e.req.protocol != x.provider.protocol ==> (e.req.protocol, x.provider.protocol) in e.tools.translators
    ensures Reads(r, TextRelay.PROTOCOLS[e.req.protocol], bytes) ==
            Due(r, TextRelay.PROTOCOLS[e.req.protocol], TextRelay.PROTOCOLS[x.provider.protocol], u.body)
  {
    if e.req.protocol != x.provider.protocol {
      TranslatedIsDue(e.tools, r, (e.req.protocol, x.provider.protocol), u.body);
    }
  }

  lemma ReceivedIsDue(e: Pipeline.Env, r: Reader, x: Pipeline.Sent, u: Attempt.Upstream, received: string)
    requires Legible(e.tools, r) && Registered(e.tools, r)
    requires !e.req.isStream && Records.ReadsAs(e, x, u, "", received) && 200 <= u.status < 300
    requires e.req.protocol in TextRelay.PROTOCOLS && x.provider.protocol in TextRelay.PROTOCOLS
    requires e.req.protocol != x.provider.protocol ==> (e.req.protocol, x.provider.protocol) in e.tools.translators
    ensures Unnamed(Reads(r, TextRelay.PROTOCOLS[e.req.protocol], received)) ==
            Unnamed(Due(r, TextRelay.PROTOCOLS[e.req.protocol], TextRelay.PROTOCOLS[x.provider.protocol], u.body))
  {
    var bytes :| Records.WholeIs(e, x, u, bytes) && received == "" +
      if e.snap.proxy.rewriteModel then ModelRewrite.RewriteModelFields(e.tools.json, bytes, e.req.alias) else bytes;
    assert received == if e.snap.proxy.rewriteModel then ModelRewrite.RewriteModelFields(e.tools.json, bytes, e.req.alias)
                       else bytes;
    WholeIsDue(e, r, x, u, bytes);
    assert RewriteKeeps(e.tools, r, TextRelay.PROTOCOLS[e.req.protocol], bytes, e.req.alias);
  }

  /** What was last sent went out in the client's protocol, or in one there is a translation for. */
  lemma LastSentIsRouted(
      e: Pipeline.Env, inFlight: map<string, int>, before: string, cand: Indexes.Candidate, w: Pipeline.Weather,
      trail: seq<Pipeline.Verdict>)
    requires trail != [] && trail[|trail| - 1].Served?
    requires trail[|trail| - 1] == Pipeline.JudgeRoute(e, inFlight, before, cand, w)
    ensures
      var sent := Pipeline.SentAll(e, trail);
      && sent != []
      && var p := sent[|sent| - 1].provider.protocol;
         e.req.protocol != p ==> (e.req.protocol, p) in e.tools.translators
    ensures w.upstream.Responded? && trail[|trail| - 1].info.status == w.upstream.status
  {
    var v := trail[|trail| - 1];
    Records.AttemptIsPosted(e, inFlight, before, cand, w, v);
    Records.RouteReaches(e, cand);
    Pipeline.ServedWas(e, inFlight, before, cand, w, v);
  }

  /** Over a whole request, failed attempts and all: a client answered with a whole 2xx reads, in its own protocol and
      under whatever model name, the words, calls, ending and counts of the answer its upstream gave. */
  lemma WholeAnswerArrives(
      e: Pipeline.Env, r: Reader, history: seq<Failover.Event>, inFlight: map<string, int>,
      cands: seq<Indexes.Candidate>, ws: seq<Pipeline.Weather>, trail: seq<Pipeline.Verdict>)
    requires |ws| == |cands| && trail == Pipeline.Serve(e, history, inFlight, "", cands, ws)
    requires Legible(e.tools, r) && Registered(e.tools, r)
    requires !e.req.isStream && 200 <= Pipeline.Answer(trail) < 300
    requires e.req.protocol in TextRelay.PROTOCOLS
    ensures
      var sent, u := Pipeline.SentAll(e, trail), ws[|trail| - 1].upstream;
      && sent != [] && u.Responded?
      && var from := sent[|sent| - 1].provider.protocol;
         from in TextRelay.PROTOCOLS ==>
           Unnamed(Reads(r, TextRelay.PROTOCOLS[e.req.protocol], Pipeline.Received(e, trail, ws, ""))) ==
           Unnamed(Due(r, TextRelay.PROTOCOLS[e.req.protocol], TextRelay.PROTOCOLS[from], u.body))
  {
    Pipeline.TriedInOrder(e, history, inFlight, "", cands, ws);
    var n := |trail| - 1;
    assert trail != [] && trail[n].Served?;
    LastSentIsRouted(e, inFlight, "", cands[n], ws[n], trail);
    Records.AnswerIsUpstreams(e, history, inFlight, "", cands, ws, trail);
    var sent := Pipeline.SentAll(e, trail);
    var x := sent[|sent| - 1];
    if x.provider.protocol in TextRelay.PROTOCOLS {
      ReceivedIsDue(e, r, x, ws[n].upstream, Pipeline.Received(e, trail, ws, ""));
    }
  }
}
