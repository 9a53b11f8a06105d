/** internal/pipeline/stream.go: one upstream attempt, relayed to the client line by line or returned whole. */
module Attempt {
  import opened Wrappers
  import opened Strings
  import opened Lists
  import Streams
  import ModelRewrite
  import Usage

  /** How an upstream body ends: at its end, in a read error, or because the relay gave up waiting for more. */
  datatype Ending = Eof | ReadError(msg: string) | IdleTimeout | Disconnected

  /** What calling the upstream comes to: `body` is all that arrives. */
  datatype Upstream =
    | CallFailed(msg: string)
    | Responded(status: int, contentType: string, body: string, ending: Ending)

  /** A translator's response side. A chunk of None ends the stream; a result of None is an error. */
  datatype Pair = Pair(
    response: string -> Option<string>,
    chunk: (Option<string>, Streams.State) -> (Option<string>, Streams.State))

  /** What stays fixed during one attempt. `mine` reads the token counts one event payload carries, if any;
      `explain` reads the reason out of an error body. */
  datatype Job = Job(
    json: ModelRewrite.Json,
    alias: string,
    rewrite: bool,
    retryCodes: seq<int>,
    pair: Option<Pair>,
    mine: string -> Option<Usage.Counts>,
    explain: (int, string) -> string)

  datatype StreamResult = StreamResult(
    committed: bool, cleanComplete: bool, retryable: bool, status: int, counts: Usage.Counts, errMsg: string)

  datatype WholeResult = WholeResult(
    status: int, contentType: string, body: string, raw: Option<string>, retryable: bool, errMsg: string)

  /** The client's side of the connection: the heads written to it and the bytes after them. */
  class Client {
    var heads: seq<int>
    var body: string

    constructor ()
      ensures heads == [] && body == ""
    {
      heads, body := [], "";
    }

    method WriteHeader(status: int)
      modifies this`heads
      ensures heads == old(heads) + [status]
    {
      heads := heads + [status];
    }

    method Write(bytes: string)
      modifies this`body
      ensures body == old(body) + bytes
    {
      body := body + bytes;
    }
  }

  /** The buffer that keeps the raw upstream stream for the archive. */
  class Sink {
    var data: string

    constructor ()
      ensures data == ""
    {
      data := "";
    }

    method Write(bytes: string)
      modifies this
      ensures data == old(data) + bytes
    {
      data := data + bytes;
    }
  }

  // ---- the lines of a body ----

  function NewlineAt(s: string): (i: int)
    ensures -1 <= i < |s|
    ensures i < 0 ==> '\n' !in s
    ensures i >= 0 ==> s[i] == '\n' && '\n' !in s[..i]
  {
    if s == "" then -1
    else if s[0] == '\n' then 0
    else
      var i := NewlineAt(s[1..]);
      assert s == [s[0]] + s[1..];
      assert i >= 0 ==> s[..i + 1] == [s[0]] + s[1..][..i];
      if i < 0 then -1 else i + 1
  }

  /** The pieces ReadBytes('\n') yields: each ends in its newline, except a last one that has none. */
  function Lines(s: string): (r: seq<string>)
    ensures forall i :: 0 <= i < |r| ==> r[i] != "" && (i < |r| - 1 ==> r[i][|r[i]| - 1] == '\n')
  {
    if s == "" then []
    else
      var i := NewlineAt(s);
      if i < 0 then [s] else [s[..i + 1]] + Lines(s[i + 1..])
  }

  /** The body up to its last newline. */
  function WholeLines(s: string): (r: string)
    ensures r <= s
    ensures r == "" || r[|r| - 1] == '\n'
    ensures '\n' !in s[|r|..]
  {
    var i := NewlineAt(s);
    if i < 0 then ""
    else
      var rest := WholeLines(s[i + 1..]);
      assert s == s[..i + 1] + s[i + 1..];
      assert s[i + 1..][|rest|..] == s[i + 1 + |rest|..];
      s[..i + 1] + rest
  }

  /** What the relay takes in: a body that ends is read to its last byte, one that is given up on to its last
      newline. */
  function Consumed(body: string, ending: Ending): string {
    if ending.Eof? || ending.ReadError? then body else WholeLines(body)
  }

  /** The text is the body up to its last line end. */
  predicate UpToLastLine(body: string, text: string) {
    text <= body && (text == "" || text[|text| - 1] == '\n') && '\n' !in body[|text|..]
  }

  /** A longer text that ends a line leaves a line end behind the shorter one. */
  lemma LineEndAfter(body: string, a: string, b: string)
    requires a <= body && b <= body && |b| > |a| && b[|b| - 1] == '\n'
    ensures '\n' in body[|a|..]
  {
    assert body[|a|..][|b| - 1 - |a|] == b[|b| - 1];
  }

  lemma NoLongerOne(body: string, a: string, b: string)
    requires UpToLastLine(body, a) && UpToLastLine(body, b)
    ensures |b| <= |a|
  {
    if |b| > |a| {
      LineEndAfter(body, a, b);
    }
  }

  /** A stream that ends, well or in an error, is taken in whole; one that is given up on, up to its last line end. */
  lemma ConsumedIs(body: string, ending: Ending, text: string)
    ensures Consumed(body, ending) == text <==>
            if ending.Eof? || ending.ReadError? then text == body else UpToLastLine(body, text)
  {
    var lines := WholeLines(body);
    if UpToLastLine(body, text) {
      NoLongerOne(body, lines, text);
      NoLongerOne(body, text, lines);
    }
  }

  // ---- what each line does ----

  /** The payload of a "data:" line. */
  function PayloadOf(line: string): Option<string> {
    var trimmed := TrimRight(line, "\r\n");
    if HasPrefix(trimmed, "data:") then Some(ModelRewrite.DataPayload(trimmed).0) else None
  }

  datatype Flow = Flow(sent: string, state: Streams.State, acc: Usage.Counts)

  /** The state of a stream before its first line, for a client that has received `sent`. */
  function Start(sent: string): Flow {
    Flow(sent, Streams.INITIAL, Usage.NO_COUNTS)
  }

  function Emitted(job: Job, frag: string): string {
    if frag == "" then ""
    else if job.rewrite then ModelRewrite.Rewritten(job.json, frag, job.alias)
    else frag
  }

  /** Feeding one chunk to the translator; an error emits nothing. */
  function FeedChunk(job: Job, pair: Pair, chunk: Option<string>, f: Flow): Flow {
    var (frag, state) := pair.chunk(chunk, f.state);
    Flow(f.sent + (if frag.Some? then Emitted(job, frag.value) else ""), state, f.acc)
  }

  /** What a line feeds to the translator, if anything. */
  function ChunkOf(job: Job, line: string): Option<Option<string>> {
    var payload := PayloadOf(line);
    if payload.None? then None
    else if payload.value == "[DONE]" then Some(None)
    else if job.json.valid(payload.value) then Some(payload)
    else None
  }

  /** The payload of what follows "data:", behind one space or none and with any blanks after it. */
  lemma DataIs(space: string, payload: string, blanks: string)
    requires space in ["", " "] && (space == "" ==> !HasPrefix(payload + blanks, " "))
    requires forall c :: c in blanks ==> c in " \t"
    requires payload == "" || payload[|payload| - 1] !in " \t"
    ensures ModelRewrite.DataPayload("data:" + (space + payload + blanks)).0 == payload
  {
    var rest := space + payload + blanks;
    assert ("data:" + rest)[5..] == rest;
    RightCut(payload, blanks, " \t");
    assert TrimRight(payload, " \t") == payload;
    if space == "" {
      assert rest == payload + blanks;
    } else {
      assert rest[0] == ' ' && rest[1..] == payload + blanks;
    }
  }

  /** What a data line is read as: its payload, whatever blanks and line end come after it. */
  lemma DataLineIs(space: string, payload: string, blanks: string, ends: string)
    requires space in ["", " "] && (space == "" ==> !HasPrefix(payload + blanks, " "))
    requires (forall c :: c in blanks ==> c in " \t") && (forall c :: c in ends ==> c in "\r\n")
    requires payload == "" || payload[|payload| - 1] !in " \t\r\n"
    ensures PayloadOf("data:" + (space + payload + blanks) + ends) == Some(payload)
  {
    RightCut("data:" + (space + payload + blanks), ends, "\r\n");
    EndsInData(space, payload, blanks);
    DataIs(space, payload, blanks);
  }

  /** The end mark feeds the nil chunk, JSON feeds itself, and any other payload nothing. */
  lemma DataFeeds(job: Job, space: string, payload: string, blanks: string, ends: string)
    requires space in ["", " "] && (space == "" ==> !HasPrefix(payload + blanks, " "))
    requires (forall c :: c in blanks ==> c in " \t") && (forall c :: c in ends ==> c in "\r\n")
    requires payload == "" || payload[|payload| - 1] !in " \t\r\n"
    ensures ChunkOf(job, "data:" + (space + payload + blanks) + ends) ==
            if payload == "[DONE]" then Some(None) else if job.json.valid(payload) then Some(Some(payload)) else None
  {
    DataLineIs(space, payload, blanks, ends);
  }

  lemma EndsInData(space: string, payload: string, blanks: string)
    requires space in ["", " "] && (forall c :: c in blanks ==> c in " \t")
    requires payload == "" || payload[|payload| - 1] !in " \t\r\n"
    ensures TrimRight("data:" + (space + payload + blanks), "\r\n") == "data:" + (space + payload + blanks)
  {
    var s := "data:" + (space + payload + blanks);
    var c := s[|s| - 1];
    if blanks != "" {
      assert c == blanks[|blanks| - 1] && c in blanks;
    } else if payload != "" {
      assert c == payload[|payload| - 1];
    } else {
      assert c == ' ' || c == ':';
    }
  }

  lemma OtherLineIs(job: Job, line: string)
    requires !HasPrefix(line, "data:")
    ensures PayloadOf(line) == None && ChunkOf(job, line) == None && MinedOf(job, line) == None
  {
  }

  /** The payload of a line that is mined for token counts. */
  function MinedOf(job: Job, line: string): Option<string> {
    var payload := PayloadOf(line);
    var skipped := if job.pair.None? then "" else "[DONE]";
    if payload.Some? && payload.value != skipped && job.json.valid(payload.value) then payload else None
  }

  /** accumulateUsage: the input side takes the last non-zero value, the cumulative side the largest. */
  function Accumulate(job: Job, payload: string, acc: Usage.Counts): Usage.Counts {
    var mined := job.mine(payload);
    if mined.None? then acc
    else
      var c := mined.value;
      Usage.Counts(
        if c.input > 0 then c.input else acc.input,
        if c.output > acc.output then c.output else acc.output,
        if c.cacheRead > 0 then c.cacheRead else acc.cacheRead,
        if c.cacheCreation > 0 then c.cacheCreation else acc.cacheCreation,
        if c.cached > acc.cached then c.cached else acc.cached,
        if c.reasoning > acc.reasoning then c.reasoning else acc.reasoning,
        if c.total > acc.total then c.total else acc.total)
  }

  function FlowLine(job: Job, line: string, f: Flow): Flow {
    var mined := MinedOf(job, line);
    var acc := if mined.Some? then Accumulate(job, mined.value, f.acc) else f.acc;
    if job.pair.None? then
      Flow(f.sent + (if job.rewrite then ModelRewrite.Rewritten(job.json, line, job.alias) else line), f.state, acc)
    else
      var chunk := ChunkOf(job, line);
      if chunk.None? then f.(acc := acc) else FeedChunk(job, job.pair.value, chunk.value, f.(acc := acc))
  }

  function FlowLines(job: Job, lines: seq<string>, f: Flow): Flow
    decreases |lines|
  {
    if lines == [] then f else FlowLines(job, lines[1..], FlowLine(job, lines[0], f))
  }

  // ---- the attempt ----

  method AccumulateUsage(job: Job, payload: string, acc: Usage.Counts) returns (r: Usage.Counts)
    ensures r == Accumulate(job, payload, acc)
  {
    var mined := job.mine(payload);
    if mined.None? {
      return acc;
    }
    var c := mined.value;
    r := acc;
    if c.input > 0 { r := r.(input := c.input); }
    if c.cacheRead > 0 { r := r.(cacheRead := c.cacheRead); }
    if c.cacheCreation > 0 { r := r.(cacheCreation := c.cacheCreation); }
    if c.output > r.output { r := r.(output := c.output); }
    if c.cached > r.cached { r := r.(cached := c.cached); }
    if c.reasoning > r.reasoning { r := r.(reasoning := c.reasoning); }
    if c.total > r.total { r := r.(total := c.total); }
  }

  method Emit(job: Job, client: Client, frag: string)
    modifies client`body
    ensures client.body == old(client.body) + Emitted(job, frag)
  {
    if |frag| == 0 {
      return;
    }
    var out := frag;
    if job.rewrite {
      out := ModelRewrite.RewriteSSEFragment(job.json, frag, job.alias);
    }
    client.Write(out);
  }

  method ProcessLine(job: Job, client: Client, sink: Sink?, line: string, state: Streams.State, acc: Usage.Counts)
    returns (state': Streams.State, acc': Usage.Counts)
    requires line != ""
    modifies client`body, sink
    ensures sink != null ==> sink.data == old(sink.data) + line
    ensures Flow(client.body, state', acc') == FlowLine(job, line, Flow(old(client.body), state, acc))
  {
    state', acc' := state, acc;
    if sink != null {
      sink.Write(line);
    }
    var payload := PayloadOf(line);
    if job.pair.None? {
      var out := line;
      if job.rewrite {
        out := ModelRewrite.RewriteSSEFragment(job.json, line, job.alias);
      }
      client.Write(out);
      if payload.Some? && payload.value != "" && job.json.valid(payload.value) {
        acc' := AccumulateUsage(job, payload.value, acc);
      }
      return;
    }
    if payload.None? || payload.value == "[DONE]" {
      if payload.Some? {
        state' := Feed(job, client, None, state);
      }
      return;
    }
    if !job.json.valid(payload.value) {
      return;
    }
    acc' := AccumulateUsage(job, payload.value, acc);
    state' := Feed(job, client, payload, state);
  }

  method Feed(job: Job, client: Client, chunk: Option<string>, state: Streams.State) returns (state': Streams.State)
    requires job.pair.Some?
    modifies client`body
    ensures
      var f := FeedChunk(job, job.pair.value, chunk, Flow(old(client.body), state, Usage.NO_COUNTS));
      client.body == f.sent && state' == f.state
  {
    var (frag, after) := job.pair.value.chunk(chunk, state);
    if frag.Some? {
      Emit(job, client, frag.value);
    }
    state' := after;
  }

  lemma ConsumedFirst(rest: string, ending: Ending)
    requires NewlineAt(rest) >= 0
    ensures
      var i := NewlineAt(rest);
      Consumed(rest, ending) == rest[..i + 1] + Consumed(rest[i + 1..], ending)
  {
    var i := NewlineAt(rest);
    if ending.Eof? || ending.ReadError? {
      assert rest == rest[..i + 1] + rest[i + 1..];
    } else {
      WholeLinesFirst(rest);
    }
  }

  lemma WholeLinesFirst(rest: string)
    requires NewlineAt(rest) >= 0
    ensures
      var i := NewlineAt(rest);
      WholeLines(rest) == rest[..i + 1] + WholeLines(rest[i + 1..])
  {
  }

  lemma LinesFirst(line: string, tail: string)
    requires NewlineAt(line) == |line| - 1 && line != ""
    ensures Lines(line + tail) == [line] + Lines(tail)
  {
    var s, i := line + tail, |line| - 1;
    assert s[..i] == line[..i];
    FirstNewline(s, i);
    assert s[..i + 1] == line && s[i + 1..] == tail;
  }

  /** The first line read from what is left, as the reader delivers it. */
  lemma FirstLine(rest: string, ending: Ending)
    requires NewlineAt(rest) >= 0
    ensures
      var i := NewlineAt(rest);
      && Consumed(rest, ending) == rest[..i + 1] + Consumed(rest[i + 1..], ending)
      && Lines(Consumed(rest, ending)) == [rest[..i + 1]] + Lines(Consumed(rest[i + 1..], ending))
  {
    var i := NewlineAt(rest);
    ConsumedFirst(rest, ending);
    NewlineEnds(rest);
    LinesFirst(rest[..i + 1], Consumed(rest[i + 1..], ending));
  }

  lemma NewlineEnds(rest: string)
    requires NewlineAt(rest) >= 0
    ensures NewlineAt(rest[..NewlineAt(rest) + 1]) == NewlineAt(rest)
  {
    var i := NewlineAt(rest);
    assert rest[..i + 1][..i] == rest[..i];
    FirstNewline(rest[..i + 1], i);
  }

  lemma LastLine(rest: string, ending: Ending)
    requires NewlineAt(rest) < 0
    ensures Consumed(rest, ending) == if ending.Eof? || ending.ReadError? then rest else ""
    ensures Lines(Consumed(rest, ending)) == if (ending.Eof? || ending.ReadError?) && rest != "" then [rest] else []
  {
  }

  /** What is still to come takes the flow so far to its end, and completes what was read. */
  ghost predicate Remaining(
      job: Job, rest: string, ending: Ending, f: Flow, read: string, end: Flow, text: string)
  {
    && FlowLines(job, Lines(Consumed(rest, ending)), f) == end
    && read + Consumed(rest, ending) == text
  }

  lemma RemainingAfterLine(
      job: Job, rest: string, ending: Ending, f: Flow, read: string, end: Flow, text: string)
    requires Remaining(job, rest, ending, f, read, end, text) && NewlineAt(rest) >= 0
    ensures
      var n := NewlineAt(rest) + 1;
      Remaining(job, rest[n..], ending, FlowLine(job, rest[..n], f), read + rest[..n], end, text)
  {
    FirstLine(rest, ending);
    var n := NewlineAt(rest) + 1;
    FlowFirst(job, rest[..n], Lines(Consumed(rest[n..], ending)), f);
    Regroup(read, rest[..n], Consumed(rest[n..], ending));
  }

  lemma FlowFirst(job: Job, line: string, lines: seq<string>, f: Flow)
    ensures FlowLines(job, [line] + lines, f) == FlowLines(job, lines, FlowLine(job, line, f))
  {
    assert ([line] + lines)[1..] == lines;
  }

  lemma RemainingAtEnd(
      job: Job, rest: string, ending: Ending, f: Flow, read: string, end: Flow, text: string)
    requires Remaining(job, rest, ending, f, read, end, text) && NewlineAt(rest) < 0
    ensures
      if (ending.Eof? || ending.ReadError?) && rest != "" then FlowLine(job, rest, f) == end && read + rest == text
      else f == end && read == text
  {
    LastLine(rest, ending);
    if (ending.Eof? || ending.ReadError?) && rest != "" {
      assert FlowLines(job, [rest], f) == FlowLines(job, [rest][1..], FlowLine(job, rest, f));
    }
  }

  lemma {:induction false} FirstNewline(s: string, i: nat)
    requires i < |s| && s[i] == '\n' && '\n' !in s[..i]
    ensures NewlineAt(s) == i
  {
    if i > 0 {
      assert s[..i][0] == s[0] && s[..i][1..] == s[1..][..i - 1];
      FirstNewline(s[1..], i - 1);
    }
  }

  function EndReason(ending: Ending): string {
    match ending
    case Eof => ""
    case ReadError(msg) => msg
    case IdleTimeout => "stream idle timeout"
    case Disconnected => "client disconnected"
  }

  /** The head goes out before the first line. */
  method RelayLine(
      job: Job, status: int, client: Client, sink: Sink?, committed: bool, line: string, state: Streams.State,
      acc: Usage.Counts)
    returns (committed': bool, state': Streams.State, acc': Usage.Counts)
    requires line != ""
    modifies client, sink
    ensures committed' && client.heads == if committed then old(client.heads) else old(client.heads) + [status]
    ensures sink != null ==> sink.data == old(sink.data) + line
    ensures Flow(client.body, state', acc') == FlowLine(job, line, Flow(old(client.body), state, acc))
  {
    if !committed {
      client.WriteHeader(status);
    }
    committed' := true;
    state', acc' := ProcessLine(job, client, sink, line, state, acc);
  }

  /** The relay loop over whole lines; what is left has no newline. `read` is what the sink would hold. */
  method RelayLines(
      job: Job, status: int, body: string, ending: Ending, client: Client, sink: Sink?, ghost held: string,
      ghost end: Flow, ghost text: string)
    returns (rest: string, committed: bool, state: Streams.State, acc: Usage.Counts, ghost read: string)
    requires Remaining(job, body, ending, Start(client.body), held, end, text)
    requires sink != null ==> sink.data == held
    modifies client, sink
    ensures NewlineAt(rest) < 0
    ensures Remaining(job, rest, ending, Flow(client.body, state, acc), read, end, text)
    ensures sink != null ==> sink.data == read
    ensures |read| >= |held| && (committed <==> |read| > |held|)
    ensures client.heads == if committed then old(client.heads) + [status] else old(client.heads)
  {
    rest, committed, state, acc, read := body, false, Streams.INITIAL, Usage.NO_COUNTS, held;
    var n := NewlineAt(rest) + 1;
    while n > 0
      invariant n == NewlineAt(rest) + 1
      invariant Remaining(job, rest, ending, Flow(client.body, state, acc), read, end, text)
      invariant sink != null ==> sink.data == read
      invariant |read| >= |held| && (committed <==> |read| > |held|)
      invariant client.heads == if committed then old(client.heads) + [status] else old(client.heads)
      decreases |rest|
    {
      RemainingAfterLine(job, rest, ending, Flow(client.body, state, acc), read, end, text);
      var line := rest[..n];
      committed, state, acc := RelayLine(job, status, client, sink, committed, line, state, acc);
      read, rest := read + line, rest[n..];
      n := NewlineAt(rest) + 1;
    }
  }

  /** The relay: until the body ends, line by line. `committed` says that the head has been written. */
  method Relay(job: Job, status: int, body: string, ending: Ending, client: Client, sink: Sink?)
    returns (committed: bool, cleanComplete: bool, acc: Usage.Counts, errMsg: string)
    modifies client, sink
    ensures committed <==> Consumed(body, ending) != ""
    ensures cleanComplete <==> ending.Eof?
    ensures errMsg == EndReason(ending)
    ensures client.heads == if committed then old(client.heads) + [status] else old(client.heads)
    ensures
      var f := FlowLines(job, Lines(Consumed(body, ending)), Start(old(client.body)));
      client.body == f.sent && acc == f.acc
    ensures sink != null ==> sink.data == old(sink.data) + Consumed(body, ending)
  {
    ghost var held := if sink == null then "" else sink.data;
    ghost var text := held + Consumed(body, ending);
    ghost var end := FlowLines(job, Lines(Consumed(body, ending)), Start(client.body));
    var rest, state;
    ghost var read;
    rest, committed, state, acc, read := RelayLines(job, status, body, ending, client, sink, held, end, text);
    RemainingAtEnd(job, rest, ending, Flow(client.body, state, acc), read, end, text);
    cleanComplete, errMsg := true, "";
    if ending.IdleTimeout? || ending.Disconnected? {
      cleanComplete := false;
      errMsg := if ending.IdleTimeout? then "stream idle timeout" else "client disconnected";
      return;
    }
    if |rest| > 0 {
      committed, state, acc := RelayLine(job, status, client, sink, committed, rest, state, acc);
    }
    if ending.ReadError? {
      cleanComplete := false;
      errMsg := ending.msg;
    }
  }

  predicate IsRetryableStatus(job: Job, status: int) {
    status in job.retryCodes
  }

  /** The upstream answers with a stream to relay. */
  predicate Relays(job: Job, upstream: Upstream) {
    upstream.Responded? && !IsRetryableStatus(job, upstream.status) && upstream.status < 400
  }

  /** The upstream answers with an error that is passed on to the client. */
  predicate PassesError(job: Job, upstream: Upstream) {
    upstream.Responded? && !IsRetryableStatus(job, upstream.status) && upstream.status >= 400
  }

  /** The reason recorded for a streamed attempt. */
  function StreamReason(job: Job, upstream: Upstream): string {
    if upstream.CallFailed? then upstream.msg
    else if Relays(job, upstream) then EndReason(upstream.ending)
    else job.explain(upstream.status, upstream.body)
  }

  /** The reason recorded for an attempt read whole. */
  function WholeReason(job: Job, upstream: Upstream): string {
    if upstream.CallFailed? then upstream.msg
    else if upstream.ending.ReadError? then upstream.ending.msg
    else if !upstream.ending.Eof? then "context ended"
    else if Relays(job, upstream) then ""
    else job.explain(upstream.status, upstream.body)
  }

  /** attemptStream. An attempt may be retried exactly when nothing was committed, and then neither the client nor
      the sink has seen any of it; a committed one has written one head and the whole relay. */
  method AttemptStream(job: Job, upstream: Upstream, client: Client, sink: Sink?) returns (r: StreamResult)
    modifies client, sink
    ensures r.retryable <==> !r.committed
    ensures r.committed <==> PassesError(job, upstream) ||
                             (Relays(job, upstream) && Consumed(upstream.body, upstream.ending) != "")
    ensures !r.committed ==> client.heads == old(client.heads) && client.body == old(client.body)
    ensures !r.committed && sink != null ==> sink.data == old(sink.data)
    ensures r.committed ==> client.heads == old(client.heads) + [upstream.status]
    ensures r.status == if upstream.Responded? then upstream.status else 0
    ensures r.errMsg == StreamReason(job, upstream)
    ensures !r.committed ==> r.counts == Usage.NO_COUNTS
    ensures Relays(job, upstream) ==>
              var f := FlowLines(job, Lines(Consumed(upstream.body, upstream.ending)), Start(old(client.body)));
              && client.body == f.sent && r.counts == f.acc
              && (sink != null ==> sink.data == old(sink.data) + Consumed(upstream.body, upstream.ending))
              && (r.cleanComplete <==> upstream.ending.Eof?)
    ensures PassesError(job, upstream) ==>
              && client.body == old(client.body) + upstream.body && r.cleanComplete && r.counts == Usage.NO_COUNTS
              && (sink != null ==> sink.data == old(sink.data))
  {
    if upstream.CallFailed? {
      return StreamResult(false, false, true, 0, Usage.NO_COUNTS, upstream.msg);
    }
    var status := upstream.status;
    if IsRetryableStatus(job, status) {
      return StreamResult(false, false, true, status, Usage.NO_COUNTS, job.explain(status, upstream.body));
    }
    if status >= 400 {
      client.WriteHeader(status);
      client.Write(upstream.body);
      return StreamResult(true, true, false, status, Usage.NO_COUNTS, job.explain(status, upstream.body));
    }
    var committed, clean, acc, errMsg := Relay(job, status, upstream.body, upstream.ending, client, sink);
    r := StreamResult(committed, clean, !committed, status, acc, errMsg);
  }

  /** attemptNonStream. */
  method AttemptNonStream(job: Job, upstream: Upstream) returns (r: WholeResult)
    ensures r.errMsg == WholeReason(job, upstream)
    ensures r.retryable <==>
            upstream.CallFailed? || !upstream.ending.Eof? || IsRetryableStatus(job, upstream.status)
    ensures !r.retryable ==> r.status == upstream.status
    ensures r.retryable ==> r.status == if upstream.Responded? && upstream.ending.Eof? then upstream.status else 0
    ensures r.raw == if upstream.Responded? && upstream.ending.Eof? then Some(upstream.body) else None
    ensures !r.retryable ==>
              var translated := if job.pair.Some? && 200 <= r.status < 300 then job.pair.value.response(upstream.body)
                                else None;
              r.body == if translated.Some? then translated.value else upstream.body
  {
    if upstream.CallFailed? {
      return WholeResult(0, "", "", None, true, upstream.msg);
    }
    if !upstream.ending.Eof? {
      return WholeResult(0, "", "", None, true,
                         if upstream.ending.ReadError? then upstream.ending.msg else "context ended");
    }
    var status, body := upstream.status, upstream.body;
    if IsRetryableStatus(job, status) {
      return WholeResult(status, upstream.contentType, body, Some(body), true, job.explain(status, body));
    }
    if status >= 400 {
      return WholeResult(status, upstream.contentType, body, Some(body), false, job.explain(status, body));
    }
    var raw := body;
    if job.pair.Some? && 200 <= status < 300 {
      var translated := job.pair.value.response(body);
      if translated.Some? {
        body := translated.value;
      }
    }
    return WholeResult(status, upstream.contentType, body, Some(raw), false, "");
  }

  // ---- what the relay amounts to ----

  function Rewrites(job: Job, text: string): string {
    if job.rewrite then ModelRewrite.Rewritten(job.json, text, job.alias) else text
  }

  lemma RewritesSplit(job: Job, line: string, rest: string)
    requires rest == "" || EndsLine(line)
    ensures Rewrites(job, line + rest) == Rewrites(job, line) + Rewrites(job, rest)
  {
    ModelRewrite.RewriteEmpty(job.json, job.alias);
    if rest == "" {
      assert line + rest == line;
    } else {
      ModelRewrite.RewriteDistributes(job.json, line, rest, job.alias);
    }
  }

  /** The first line of a text and what follows it. */
  lemma CutFirstLine(text: string) returns (line: string, rest: string)
    requires text != ""
    ensures text == line + rest && |rest| < |text| && (rest == "" || EndsLine(line))
    ensures Lines(text) == [line] + Lines(rest)
  {
    var i := NewlineAt(text);
    if i < 0 {
      line, rest := text, "";
    } else {
      line, rest := text[..i + 1], text[i + 1..];
    }
  }

  /** The lines are the body cut up: nothing is lost. */
  lemma {:induction false} LinesConcat(s: string)
    ensures Concat(Lines(s)) == s
    decreases |s|
  {
    if s != "" {
      var line, rest := CutFirstLine(s);
      LinesConcat(rest);
      assert ([line] + Lines(rest))[1..] == Lines(rest);
    }
  }

  /** What passthrough sends is one rewrite of the whole raw stream, however it was cut into lines. */
  lemma {:induction false} PassthroughIsWholeRewrite(job: Job, text: string, f: Flow)
    requires job.pair.None?
    ensures FlowLines(job, Lines(text), f).sent == f.sent + Rewrites(job, text)
    decreases |text|
  {
    if text == "" {
      ModelRewrite.RewriteEmpty(job.json, job.alias);
    } else {
      var line, rest := CutFirstLine(text);
      assert ([line] + Lines(rest))[1..] == Lines(rest);
      PassthroughIsWholeRewrite(job, rest, FlowLine(job, line, f));
      RewritesSplit(job, line, rest);
      Regroup(f.sent, Rewrites(job, line), Rewrites(job, rest));
    }
  }

  /** The chunks a stream feeds to the translator. */
  function Chunks(job: Job, lines: seq<string>): seq<Option<string>> {
    FlatMap(ChunksOf, job, lines)
  }

  function ChunksOf(job: Job, line: string): seq<Option<string>> {
    var chunk := ChunkOf(job, line);
    if chunk.Some? then [chunk.value] else []
  }

  /** The fragments the translator makes of a run of chunks. */
  function Frags(pair: Pair, state: Streams.State, chunks: seq<Option<string>>): seq<string>
    decreases |chunks|
  {
    if chunks == [] then []
    else
      var (frag, after) := pair.chunk(chunks[0], state);
      (if frag.Some? then [frag.value] else []) + Frags(pair, after, chunks[1..])
  }

  predicate EndsLine(frag: string) {
    frag == "" || frag[|frag| - 1] == '\n'
  }

  function EmittedAll(job: Job, frags: seq<string>): string {
    if frags == [] then "" else Emitted(job, frags[0]) + EmittedAll(job, frags[1..])
  }

  lemma {:induction false} EmittedAllIsWholeRewrite(job: Job, frags: seq<string>)
    requires forall frag :: frag in frags ==> EndsLine(frag)
    ensures EmittedAll(job, frags) == Rewrites(job, Concat(frags))
  {
    ModelRewrite.RewriteEmpty(job.json, job.alias);
    if frags != [] {
      assert frags[0] in frags;
      EmittedAllIsWholeRewrite(job, frags[1..]);
      RewritesSplit(job, frags[0], Concat(frags[1..]));
    }
  }

  lemma FeedSends(job: Job, pair: Pair, chunk: Option<string>, rest: seq<Option<string>>, f: Flow)
    ensures
      var after := FeedChunk(job, pair, chunk, f);
      f.sent + EmittedAll(job, Frags(pair, f.state, [chunk] + rest)) ==
      after.sent + EmittedAll(job, Frags(pair, after.state, rest))
  {
    FragsFirst(pair, f.state, chunk, rest);
    var (frag, state) := pair.chunk(chunk, f.state);
    var frags := Frags(pair, state, rest);
    if frag.Some? {
      assert ([frag.value] + frags)[1..] == frags;
      Regroup(f.sent, Emitted(job, frag.value), EmittedAll(job, frags));
    } else {
      assert [] + frags == frags;
    }
  }

  lemma {:induction false} TranslationSends(job: Job, lines: seq<string>, f: Flow)
    requires job.pair.Some?
    ensures FlowLines(job, lines, f).sent ==
            f.sent + EmittedAll(job, Frags(job.pair.value, f.state, Chunks(job, lines)))
    decreases |lines|
  {
    if lines != [] {
      TranslationSends(job, lines[1..], FlowLine(job, lines[0], f));
      LineSends(job, lines[0], Chunks(job, lines[1..]), f);
    }
  }

  lemma LineSends(job: Job, line: string, rest: seq<Option<string>>, f: Flow)
    requires job.pair.Some?
    ensures
      var after := FlowLine(job, line, f);
      f.sent + EmittedAll(job, Frags(job.pair.value, f.state, ChunksOf(job, line) + rest)) ==
      after.sent + EmittedAll(job, Frags(job.pair.value, after.state, rest))
  {
    var chunk := ChunkOf(job, line);
    if chunk.None? {
      assert ChunksOf(job, line) + rest == rest;
    } else {
      var mined := MinedOf(job, line);
      var acc := if mined.Some? then Accumulate(job, mined.value, f.acc) else f.acc;
      FeedSends(job, job.pair.value, chunk.value, rest, f.(acc := acc));
    }
  }

  /** What a translated stream sends is one rewrite of the translator's whole output over the data events, the
      terminal nil chunks included, and of nothing else. */
  lemma TranslationIsWholeRewrite(job: Job, lines: seq<string>, f: Flow)
    requires job.pair.Some?
    requires forall frag :: frag in Frags(job.pair.value, f.state, Chunks(job, lines)) ==> EndsLine(frag)
    ensures FlowLines(job, lines, f).sent ==
            f.sent + Rewrites(job, Concat(Frags(job.pair.value, f.state, Chunks(job, lines))))
  {
    TranslationSends(job, lines, f);
    EmittedAllIsWholeRewrite(job, Frags(job.pair.value, f.state, Chunks(job, lines)));
  }

  lemma FragsFirst(pair: Pair, state: Streams.State, chunk: Option<string>, rest: seq<Option<string>>)
    ensures
      var (frag, after) := pair.chunk(chunk, state);
      Frags(pair, state, [chunk] + rest) == (if frag.Some? then [frag.value] else []) + Frags(pair, after, rest)
  {
    assert ([chunk] + rest)[1..] == rest;
  }

  // ---- token counts of a stream ----

  /** The counts a stream's events carry, in order. */
  function MinedCounts(job: Job, lines: seq<string>): seq<Usage.Counts> {
    if lines == [] then []
    else
      var mined := MinedOf(job, lines[0]);
      var counts := if mined.Some? then job.mine(mined.value) else None;
      (if counts.Some? then [counts.value] else []) + MinedCounts(job, lines[1..])
  }

  /** `r` is the largest of the values and `init`. */
  ghost predicate IsLargest(values: seq<int>, init: int, r: int) {
    && r >= init
    && (forall i :: 0 <= i < |values| ==> values[i] <= r)
    && (r == init || exists i :: 0 <= i < |values| && values[i] == r)
  }

  /** `r` is the last positive value, or `init` when there is none. */
  ghost predicate IsLastPositive(values: seq<int>, init: int, r: int) {
    if NonePositive(values) then r == init
    else exists i :: 0 <= i < |values| && values[i] == r && r > 0 && NonePositive(values[i + 1..])
  }

  ghost predicate NonePositive(values: seq<int>) {
    forall v :: v in values ==> v <= 0
  }

  function Inputs(cs: seq<Usage.Counts>): seq<int> { seq(|cs|, i requires 0 <= i < |cs| => cs[i].input) }

  function CacheReads(cs: seq<Usage.Counts>): seq<int> { seq(|cs|, i requires 0 <= i < |cs| => cs[i].cacheRead) }

  function CacheCreations(cs: seq<Usage.Counts>): seq<int> { seq(|cs|, i requires 0 <= i < |cs| => cs[i].cacheCreation) }

  function Outputs(cs: seq<Usage.Counts>): seq<int> { seq(|cs|, i requires 0 <= i < |cs| => cs[i].output) }

  function Cacheds(cs: seq<Usage.Counts>): seq<int> { seq(|cs|, i requires 0 <= i < |cs| => cs[i].cached) }

  function Reasonings(cs: seq<Usage.Counts>): seq<int> { seq(|cs|, i requires 0 <= i < |cs| => cs[i].reasoning) }

  function Totals(cs: seq<Usage.Counts>): seq<int> { seq(|cs|, i requires 0 <= i < |cs| => cs[i].total) }

  lemma LargestFirst(x: int, values: seq<int>, init: int, r: int)
    requires IsLargest(values, if x > init then x else init, r)
    ensures IsLargest([x] + values, init, r)
  {
    var all := [x] + values;
    assert all[0] == x;
    assert forall i :: 0 <= i < |values| ==> all[i + 1] == values[i];
    forall i | 0 <= i < |all| ensures all[i] <= r {
      assert i == 0 || all[i] == values[i - 1];
    }
  }

  lemma LastFirst(x: int, values: seq<int>, init: int, r: int)
    requires IsLastPositive(values, if x > 0 then x else init, r)
    ensures IsLastPositive([x] + values, init, r)
  {
    var all := [x] + values;
    assert all[0] == x && all[1..] == values;
    if NonePositive(values) {
      if x > 0 {
        assert r == x && all[0] == r && NonePositive(all[0 + 1..]) && x in all;
      } else {
        assert NonePositive(all);
      }
    } else {
      var i :| 0 <= i < |values| && values[i] == r && r > 0 && NonePositive(values[i + 1..]);
      assert all[i + 1] == r && all[i + 2..] == values[i + 1..];
      assert r in all;
    }
  }

  /** The counts after a stream: the last positive input-side values, the largest cumulative ones. */
  ghost predicate Merges(cs: seq<Usage.Counts>, init: Usage.Counts, r: Usage.Counts) {
    && IsLastPositive(Inputs(cs), init.input, r.input)
    && IsLastPositive(CacheReads(cs), init.cacheRead, r.cacheRead)
    && IsLastPositive(CacheCreations(cs), init.cacheCreation, r.cacheCreation)
    && IsLargest(Outputs(cs), init.output, r.output)
    && IsLargest(Cacheds(cs), init.cached, r.cached)
    && IsLargest(Reasonings(cs), init.reasoning, r.reasoning)
    && IsLargest(Totals(cs), init.total, r.total)
  }

  lemma MergesFirst(c: Usage.Counts, cs: seq<Usage.Counts>, init: Usage.Counts, mid: Usage.Counts, r: Usage.Counts)
    requires mid == Usage.Counts(
        if c.input > 0 then c.input else init.input,
        if c.output > init.output then c.output else init.output,
        if c.cacheRead > 0 then c.cacheRead else init.cacheRead,
        if c.cacheCreation > 0 then c.cacheCreation else init.cacheCreation,
        if c.cached > init.cached then c.cached else init.cached,
        if c.reasoning > init.reasoning then c.reasoning else init.reasoning,
        if c.total > init.total then c.total else init.total)
    requires Merges(cs, mid, r)
    ensures Merges([c] + cs, init, r)
  {
    var all := [c] + cs;
    assert Inputs(all) == [c.input] + Inputs(cs);
    assert CacheReads(all) == [c.cacheRead] + CacheReads(cs);
    assert CacheCreations(all) == [c.cacheCreation] + CacheCreations(cs);
    assert Outputs(all) == [c.output] + Outputs(cs);
    assert Cacheds(all) == [c.cached] + Cacheds(cs);
    assert Reasonings(all) == [c.reasoning] + Reasonings(cs);
    assert Totals(all) == [c.total] + Totals(cs);
    LastFirst(c.input, Inputs(cs), init.input, r.input);
    LastFirst(c.cacheRead, CacheReads(cs), init.cacheRead, r.cacheRead);
    LastFirst(c.cacheCreation, CacheCreations(cs), init.cacheCreation, r.cacheCreation);
    LargestFirst(c.output, Outputs(cs), init.output, r.output);
    LargestFirst(c.cached, Cacheds(cs), init.cached, r.cached);
    LargestFirst(c.reasoning, Reasonings(cs), init.reasoning, r.reasoning);
    LargestFirst(c.total, Totals(cs), init.total, r.total);
  }

  lemma {:induction false} StreamCounts(job: Job, lines: seq<string>, f: Flow)
    ensures Merges(MinedCounts(job, lines), f.acc, FlowLines(job, lines, f).acc)
    decreases |lines|
  {
    if lines != [] {
      var after := FlowLine(job, lines[0], f);
      StreamCounts(job, lines[1..], after);
      var mined := MinedOf(job, lines[0]);
      var counts := if mined.Some? then job.mine(mined.value) else None;
      var rest := MinedCounts(job, lines[1..]);
      if counts.Some? {
        MergesFirst(counts.value, rest, f.acc, after.acc, FlowLines(job, lines, f).acc);
        assert MinedCounts(job, lines) == [counts.value] + rest;
      } else {
        assert MinedCounts(job, lines) == rest;
      }
    }
  }

  /** What a total is derived from: Anthropic's four counts, else input and output alone. */
  function Derived(c: Usage.Counts, protocol: string): int {
    c.input + c.output + if protocol == "anthropic" then c.cacheRead + c.cacheCreation else 0
  }

  function Finalized(c: Usage.Counts, protocol: string): Usage.Counts {
    if c.total > 0 then c else c.(total := Derived(c, protocol))
  }

  /** finalizeCounts, which touches nothing but a total that is missing. */
  method FinalizeCounts(c: Usage.Counts, protocol: string) returns (r: Usage.Counts)
    ensures r == Finalized(c, protocol)
  {
    r := c;
    if r.total > 0 {
      return;
    }
    if protocol == "anthropic" {
      r := r.(total := r.input + r.output + r.cacheRead + r.cacheCreation);
    } else {
      r := r.(total := r.input + r.output);
    }
  }

  /** The counts recorded for a whole stream. If any event reported a positive total, the largest report stands; if
      none did, the total is derived from the last positive input-side counts and the largest output count the stream
      carried. The other counts are as merged, and finalising again changes nothing. */
  lemma StreamTotal(job: Job, lines: seq<string>, sent: string, protocol: string)
    ensures
      var cs := MinedCounts(job, lines);
      var acc := FlowLines(job, lines, Start(sent)).acc;
      var r := Finalized(acc, protocol);
      && Merges(cs, Usage.NO_COUNTS, r.(total := acc.total))
      && Finalized(r, protocol) == r
      && (if exists i :: 0 <= i < |cs| && cs[i].total > 0 then IsLargest(Totals(cs), 0, r.total)
          else r.total == Derived(r, protocol))
  {
    StreamCounts(job, lines, Start(sent));
    var cs := MinedCounts(job, lines);
    var acc := FlowLines(job, lines, Start(sent)).acc;
    assert acc == Finalized(acc, protocol).(total := acc.total);
    if i :| 0 <= i < |cs| && cs[i].total > 0 {
      assert Totals(cs)[i] <= acc.total;
    } else {
      assert acc.total == 0;
    }
  }
}
