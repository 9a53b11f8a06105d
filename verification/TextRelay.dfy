/** A translated stream from end to end: upstream bytes, decoded events, a chunk transform of
    internal/translate/stream.go, framed events, the alias rewrite, and the client's bytes. */
module TextRelay {
  import opened Wrappers
  import opened Strings
  import opened Lists
  import opened Wire
  import Streams
  import ModelRewrite
  import Archive
  import Failover
  import Indexes
  import Attempt
  import Pipeline

  datatype Event = A(a: AnthropicEvent) | O(o: OpenAIEvent) | C(c: CodexEvent)

  /** How the JSON library writes an event, and what the lookups of a protocol find in a JSON text. */
  datatype Codec = Codec(marshal: Event -> string, lookup: (Streams.Protocol, string) -> Event)

  const PROTOCOLS := map[
    "anthropic" := Streams.AnthropicProtocol,
    "openai_completion" := Streams.OpenAIProtocol,
    "codex" := Streams.CodexProtocol]

  function ProtocolOf(e: Event): Streams.Protocol {
    match e
    case A(_) => Streams.AnthropicProtocol
    case O(_) => Streams.OpenAIProtocol
    case C(_) => Streams.CodexProtocol
  }

  function EventText(e: Event): string {
    match e
    case A(a) => AnthropicText(a)
    case O(o) => OpenAIText(o)
    case C(c) => CodexText(c)
  }

  // ---- reading ----

  /** The event in one chunk; the nil chunk has no fields. */
  function Decode(codec: Codec, p: Streams.Protocol, chunk: Option<string>): Event {
    match chunk
    case Some(text) => codec.lookup(p, text)
    case None =>
      match p
      case AnthropicProtocol => A(OtherEvent)
      case OpenAIProtocol => O(Done)
      case CodexProtocol => C(OtherItem)
  }

  function Decoded(codec: Codec, p: Streams.Protocol, chunks: seq<Option<string>>): seq<Event> {
    if chunks == [] then [] else [Decode(codec, p, chunks[0])] + Decoded(codec, p, chunks[1..])
  }

  /** The events in some bytes: those of their data lines. */
  function Events(job: Attempt.Job, codec: Codec, p: Streams.Protocol, bytes: string): seq<Event> {
    Decoded(codec, p, Attempt.Chunks(job, Attempt.Lines(bytes)))
  }

  /** The text a reader of protocol `p` finds in some bytes. */
  function TextRead(job: Attempt.Job, codec: Codec, p: Streams.Protocol, bytes: string): string {
    Gather(EventText, Events(job, codec, p, bytes))
  }

  // ---- translating ----

  function Wrapped<E>(wrap: E -> Event, events: seq<E>): seq<Event> {
    if events == [] then [] else [wrap(events[0])] + Wrapped(wrap, events[1..])
  }

  /** The transform towards `to` that an event's protocol is registered with. */
  function Step(valid: string -> bool, to: Streams.Protocol, st: Streams.State, e: Event): (Streams.State, seq<Event>) {
    match (e, to)
    case (A(a), OpenAIProtocol) =>
      var (after, out) := Streams.AnthropicToOpenAI(valid, st, a); (after, Wrapped(o => O(o), out))
    case (A(a), CodexProtocol) =>
      var (after, out) := Streams.AnthropicToCodex(st, a); (after, Wrapped(c => C(c), out))
    case (O(o), AnthropicProtocol) =>
      var (after, out) := Streams.OpenAIToAnthropic(st, o); (after, Wrapped(a => A(a), out))
    case (O(o), CodexProtocol) =>
      var (after, out) := Streams.OpenAIToCodex(st, o); (after, Wrapped(c => C(c), out))
    case (C(c), AnthropicProtocol) =>
      var (after, out) := Streams.CodexToAnthropic(st, c); (after, Wrapped(a => A(a), out))
    case (C(c), OpenAIProtocol) =>
      var (after, out) := Streams.CodexToOpenAI(st, c); (after, Wrapped(o => O(o), out))
    case _ => (st, [e])
  }

  // ---- framing ----

  /** The event name of a framed event; OpenAI's have none. */
  function Name(e: Event): string {
    match e
    case A(a) => AnthropicName(a)
    case C(c) => CodexName(c)
    case O(_) => ""
  }

  function AnthropicName(a: AnthropicEvent): string {
    match a
    case MessageStart(_) => "message_start"
    case BlockStart(_, _) => "content_block_start"
    case BlockDelta(_, _) => "content_block_delta"
    case BlockStop(_) => "content_block_stop"
    case MessageDelta(_) => "message_delta"
    case MessageStop => "message_stop"
    case OtherEvent => "ping"
  }

  lemma AnthropicNameIsOneLine(a: AnthropicEvent)
    ensures '\n' !in AnthropicName(a)
  {
  }

  function CodexName(c: CodexEvent): string {
    match c
    case Created(_) => "response.created"
    case InProgress(_) => "response.in_progress"
    case OutputTextDelta(_) => "response.output_text.delta"
    case Completed(_) => "response.completed"
    case OtherItem => "response.output_item.added"
  }

  lemma CodexNameIsOneLine(c: CodexEvent)
    ensures '\n' !in CodexName(c)
  {
  }

  function Head(e: Event): string {
    if e.O? then "" else "event: " + Name(e) + "\n"
  }

  function Payload(codec: Codec, e: Event): string {
    if e == O(Done) then "[DONE]" else codec.marshal(e)
  }

  /** The chunk builders: a complete SSE fragment. */
  function Frame(codec: Codec, e: Event): string {
    Head(e) + "data: " + Payload(codec, e) + "\n\n"
  }

  function FrameAll(codec: Codec, events: seq<Event>): string {
    if events == [] then "" else Frame(codec, events[0]) + FrameAll(codec, events[1..])
  }

  /** A pair's chunk transform is the one from `from` to `to`, between decoding and framing. */
  ghost predicate Implements(
      pair: Attempt.Pair, codec: Codec, valid: string -> bool, from: Streams.Protocol, to: Streams.Protocol)
  {
    forall chunk, st ::
      var (after, out) := Step(valid, to, st, Decode(codec, from, chunk));
      pair.chunk(chunk, st) == (Some(FrameAll(codec, out)), after)
  }

  /** The registry holds the six transforms. */
  ghost predicate Registered(tools: Pipeline.Tools, codec: Codec) {
    forall k :: k in tools.translators ==>
      && k.0 in PROTOCOLS && k.1 in PROTOCOLS
      && Implements(tools.translators[k].upstream, codec, tools.json.valid, PROTOCOLS[k.1], PROTOCOLS[k.0])
  }

  /** `b` is one JSON object on one line, in which a reader of `p` finds `text`. */
  ghost predicate Shows(job: Attempt.Job, codec: Codec, p: Streams.Protocol, b: string, text: string) {
    && |b| >= 2 && b[0] == '{' && b[|b| - 1] == '}' && '\n' !in b
    && job.json.valid(b)
    && EventText(codec.lookup(p, b)) == text
  }

  /** The laws of the JSON library: what it writes for an event reads back to the event's text, also after the model
      fields have been set to the alias. */
  ghost predicate Legible(job: Attempt.Job, codec: Codec) {
    forall e: Event {:trigger codec.marshal(e)} :: e != O(Done) ==>
      && Shows(job, codec, ProtocolOf(e), codec.marshal(e), EventText(e))
      && Shows(job, codec, ProtocolOf(e), ModelRewrite.RewriteModelFields(job.json, codec.marshal(e), job.alias),
               EventText(e))
  }

  // ---- every transform keeps the text of every event ----

  lemma {:induction false} WrappedText<E>(wrap: E -> Event, text: E -> string, events: seq<E>)
    requires forall e :: EventText(wrap(e)) == text(e)
    ensures Gather(EventText, Wrapped(wrap, events)) == Gather(text, events)
  {
    if events != [] {
      WrappedText(wrap, text, events[1..]);
      assert Wrapped(wrap, events)[1..] == Wrapped(wrap, events[1..]);
    }
  }

  lemma AnthropicStepKeepsText(
      valid: string -> bool, to: Streams.Protocol, st: Streams.State, a: AnthropicEvent)
    ensures Gather(EventText, Step(valid, to, st, A(a)).1) == AnthropicText(a)
  {
    match to
    case OpenAIProtocol => WrappedText(o => O(o), OpenAIText, Streams.AnthropicToOpenAI(valid, st, a).1);
    case CodexProtocol => WrappedText(c => C(c), CodexText, Streams.AnthropicToCodex(st, a).1);
    case AnthropicProtocol => TextOfOne(A(a));
  }

  lemma OpenAIStepKeepsText(valid: string -> bool, to: Streams.Protocol, st: Streams.State, o: OpenAIEvent)
    ensures Gather(EventText, Step(valid, to, st, O(o)).1) == OpenAIText(o)
  {
    match to
    case AnthropicProtocol =>
      Streams.OpenAIToAnthropicKeepsText(st, o);
      WrappedText(a => A(a), AnthropicText, Streams.OpenAIToAnthropic(st, o).1);
    case CodexProtocol =>
      Streams.OpenAIToCodexKeepsText(st, o);
      WrappedText(c => C(c), CodexText, Streams.OpenAIToCodex(st, o).1);
    case OpenAIProtocol => TextOfOne(O(o));
  }

  lemma CodexStepKeepsText(valid: string -> bool, to: Streams.Protocol, st: Streams.State, c: CodexEvent)
    ensures Gather(EventText, Step(valid, to, st, C(c)).1) == CodexText(c)
  {
    match to
    case AnthropicProtocol =>
      Streams.CodexToAnthropicKeepsText(st, c);
      WrappedText(a => A(a), AnthropicText, Streams.CodexToAnthropic(st, c).1);
    case OpenAIProtocol =>
      Streams.CodexToOpenAIKeepsText(st, c);
      WrappedText(o => O(o), OpenAIText, Streams.CodexToOpenAI(st, c).1);
    case CodexProtocol => TextOfOne(C(c));
  }

  lemma TextOfOne(e: Event)
    ensures Gather(EventText, [e]) == EventText(e)
  {
    assert [e][1..] == [];
  }

  lemma StepKeepsText(valid: string -> bool, to: Streams.Protocol, st: Streams.State, e: Event)
    ensures Gather(EventText, Step(valid, to, st, e).1) == EventText(e)
  {
    match e
    case A(a) => AnthropicStepKeepsText(valid, to, st, a);
    case O(o) => OpenAIStepKeepsText(valid, to, st, o);
    case C(c) => CodexStepKeepsText(valid, to, st, c);
  }

  lemma {:induction false} WrappedAre<E>(wrap: E -> Event, p: Streams.Protocol, events: seq<E>)
    requires forall e :: ProtocolOf(wrap(e)) == p
    ensures forall e :: e in Wrapped(wrap, events) ==> ProtocolOf(e) == p
  {
    if events != [] {
      WrappedAre(wrap, p, events[1..]);
    }
  }

  /** A transform towards `to` emits events of `to`. */
  lemma StepSpeaks(valid: string -> bool, to: Streams.Protocol, st: Streams.State, e: Event)
    ensures forall o :: o in Step(valid, to, st, e).1 ==> ProtocolOf(o) == to
  {
    match (e, to)
    case (A(a), OpenAIProtocol) => WrappedAre(o => O(o), to, Streams.AnthropicToOpenAI(valid, st, a).1);
    case (A(a), CodexProtocol) => WrappedAre(c => C(c), to, Streams.AnthropicToCodex(st, a).1);
    case (O(o), AnthropicProtocol) => WrappedAre(a => A(a), to, Streams.OpenAIToAnthropic(st, o).1);
    case (O(o), CodexProtocol) => WrappedAre(c => C(c), to, Streams.OpenAIToCodex(st, o).1);
    case (C(c), AnthropicProtocol) => WrappedAre(a => A(a), to, Streams.CodexToAnthropic(st, c).1);
    case (C(c), OpenAIProtocol) => WrappedAre(o => O(o), to, Streams.CodexToOpenAI(st, c).1);
    case _ =>
  }

  // ---- the events in concatenated bytes ----

  lemma {:induction false} DecodedAppend(codec: Codec, p: Streams.Protocol, a: seq<Option<string>>, b: seq<Option<string>>)
    ensures Decoded(codec, p, a + b) == Decoded(codec, p, a) + Decoded(codec, p, b)
  {
    if a == [] {
      assert a + b == b;
    } else {
      DecodedAppend(codec, p, a[1..], b);
      assert (a + b)[0] == a[0] && (a + b)[1..] == a[1..] + b;
      Regroup([Decode(codec, p, a[0])], Decoded(codec, p, a[1..]), Decoded(codec, p, b));
    }
  }

  /** The first of some whole lines. */
  lemma FirstOfLines(a: string) returns (line: string, rest: string)
    requires a != "" && Attempt.EndsLine(a)
    ensures a == line + rest && line != "" && Attempt.NewlineAt(line) == |line| - 1 && Attempt.EndsLine(rest)
    ensures Attempt.Lines(a) == [line] + Attempt.Lines(rest)
  {
    var i := Attempt.NewlineAt(a);
    assert a[|a| - 1] == '\n';
    line, rest := a[..i + 1], a[i + 1..];
    Attempt.NewlineEnds(a);
  }

  lemma {:induction false} LinesAppend(a: string, b: string)
    requires Attempt.EndsLine(a)
    ensures Attempt.Lines(a + b) == Attempt.Lines(a) + Attempt.Lines(b)
    decreases |a|
  {
    if a == "" {
      assert a + b == b;
    } else {
      var line, rest := FirstOfLines(a);
      Regroup(line, rest, b);
      Attempt.LinesFirst(line, rest + b);
      LinesAppend(rest, b);
      Regroup([line], Attempt.Lines(rest), Attempt.Lines(b));
    }
  }

  /** A reader finds the text of a whole line before that of what follows it. */
  lemma ReadAppend(job: Attempt.Job, codec: Codec, p: Streams.Protocol, a: string, b: string)
    requires Attempt.EndsLine(a)
    ensures TextRead(job, codec, p, a + b) == TextRead(job, codec, p, a) + TextRead(job, codec, p, b)
  {
    LinesAppend(a, b);
    FlatMapAppend(Attempt.ChunksOf, job, Attempt.Lines(a), Attempt.Lines(b));
    DecodedAppend(codec, p, Attempt.Chunks(job, Attempt.Lines(a)), Attempt.Chunks(job, Attempt.Lines(b)));
    GatherAppend(EventText, Events(job, codec, p, a), Events(job, codec, p, b));
  }

  // ---- one framed event, rewritten and read ----

  lemma DecodedOne(codec: Codec, p: Streams.Protocol, chunk: Option<string>)
    ensures Gather(EventText, Decoded(codec, p, [chunk])) == EventText(Decode(codec, p, chunk))
  {
    assert [chunk][1..] == [];
    assert Decoded(codec, p, [chunk]) == [Decode(codec, p, chunk)];
    TextOfOne(Decode(codec, p, chunk));
  }

  lemma ReadLine(job: Attempt.Job, codec: Codec, p: Streams.Protocol, line: string)
    requires Attempt.NewlineAt(line) == |line| - 1 && line != ""
    ensures
      var chunk := Attempt.ChunkOf(job, line);
      TextRead(job, codec, p, line) == if chunk.Some? then EventText(Decode(codec, p, chunk.value)) else ""
  {
    Attempt.LinesFirst(line, "");
    assert line + "" == line;
    assert Attempt.Lines(line) == [line];
    FlatMapOne(Attempt.ChunksOf, job, line);
    var chunk := Attempt.ChunkOf(job, line);
    if chunk.Some? {
      DecodedOne(codec, p, chunk.value);
    }
  }

  /** A text on one line that ends in no white space, as a payload does. */
  predicate OneLine(b: string) {
    b != "" && '\n' !in b && b[|b| - 1] !in " \t\r\n"
  }

  /** What the readers of lines make of a data line. */
  lemma DataLine(b: string)
    requires OneLine(b)
    ensures ModelRewrite.DataPayload("data: " + b) == (b, true)
    ensures Attempt.PayloadOf("data: " + b + "\n") == Some(b)
  {
    var line := "data: " + b;
    assert line[|"data:"|..] == " " + b;
    assert (" " + b)[1..] == b;
    assert (line + "\n")[..|line|] == line;
    assert TrimRight(line + "\n", "\r\n") == TrimRight(line, "\r\n") == line;
  }

  /** One line is rewritten as a line. */
  lemma RewriteSingle(json: ModelRewrite.Json, x: string, alias: string)
    requires '\n' !in x
    ensures ModelRewrite.Rewritten(json, x, alias) == ModelRewrite.RewriteLine(json, x, alias)
  {
    ModelRewrite.NoNewline(x);
    assert ModelRewrite.RewriteLines(json, [x], alias) == [ModelRewrite.RewriteLine(json, x, alias)];
  }

  lemma NameIsOneLine(e: Event)
    ensures '\n' !in Name(e)
  {
    match e
    case A(a) => AnthropicNameIsOneLine(a);
    case C(c) => CodexNameIsOneLine(c);
    case O(_) =>
  }

  /** A head is one line, and no data line. */
  lemma HeadLine(e: Event) returns (x: string)
    requires !e.O?
    ensures Head(e) == x + "\n" && x != "" && x[0] == 'e' && '\n' !in x
  {
    NameIsOneLine(e);
    x := "event: " + Name(e);
  }

  /** A line that is no data line stays as it is. */
  lemma LineIsKept(json: ModelRewrite.Json, x: string, rest: string, alias: string)
    requires x != "" && x[0] != 'd' && '\n' !in x
    ensures ModelRewrite.Rewritten(json, x + "\n" + rest, alias) == x + "\n" + ModelRewrite.Rewritten(json, rest, alias)
  {
    RewriteSingle(json, x, alias);
    ModelRewrite.RewriteAcrossNewline(json, x, rest, alias);
  }

  lemma HeadIsKept(json: ModelRewrite.Json, e: Event, rest: string, alias: string)
    ensures ModelRewrite.Rewritten(json, Head(e) + rest, alias) == Head(e) + ModelRewrite.Rewritten(json, rest, alias)
  {
    if !e.O? {
      var x := HeadLine(e);
      LineIsKept(json, x, rest, alias);
    } else {
      assert "" + rest == rest;
      assert "" + ModelRewrite.Rewritten(json, rest, alias) == ModelRewrite.Rewritten(json, rest, alias);
    }
  }

  /** The payload a client is sent for `b`. */
  function Sent(job: Attempt.Job, b: string): string {
    if job.rewrite && ModelRewrite.Rewritable(job.json, "data: " + b)
    then ModelRewrite.RewriteModelFields(job.json, b, job.alias) else b
  }

  /** The data line of a frame and the blank line after it. */
  function Body(b: string): string {
    "data: " + b + "\n" + "\n"
  }

  lemma BodyRewritten(job: Attempt.Job, b: string)
    requires OneLine(b)
    ensures Attempt.Rewrites(job, Body(b)) == Body(Sent(job, b))
  {
    if job.rewrite {
      var data := "data: " + b;
      ModelRewrite.RewriteAcrossNewline(job.json, data, "\n", job.alias);
      ModelRewrite.RewriteOneLine(job.json, "", job.alias);
      ModelRewrite.RewriteEmpty(job.json, job.alias);
      assert "" + "\n" == "\n";
      RewriteSingle(job.json, data, job.alias);
      DataLine(b);
    }
  }

  /** The alias rewrite of a framed event touches its payload and nothing else. */
  lemma RewrittenFrame(job: Attempt.Job, codec: Codec, e: Event)
    requires OneLine(Payload(codec, e))
    ensures Frame(codec, e) == Head(e) + Body(Payload(codec, e))
    ensures Attempt.Rewrites(job, Frame(codec, e)) == Head(e) + Body(Sent(job, Payload(codec, e)))
  {
    var b := Payload(codec, e);
    Regroup(Head(e), "data: " + b, "\n\n");
    Regroup(Head(e), "data: ", b);
    assert "data: " + b + "\n\n" == Body(b);
    BodyRewritten(job, b);
    HeadIsKept(job.json, e, Body(b), job.alias);
  }

  lemma SilentLine(job: Attempt.Job, codec: Codec, p: Streams.Protocol, x: string, rest: string)
    requires x != "" && x[0] != 'd' && '\n' !in x
    ensures TextRead(job, codec, p, x + "\n" + rest) == TextRead(job, codec, p, rest)
  {
    var line := x + "\n";
    assert line[..|x|] == x;
    Attempt.FirstNewline(line, |x|);
    ReadAppend(job, codec, p, line, rest);
    ReadLine(job, codec, p, line);
    var trimmed := TrimRight(line, "\r\n");
    assert trimmed == "" || trimmed[0] == x[0];
  }

  lemma ReadHead(job: Attempt.Job, codec: Codec, p: Streams.Protocol, e: Event, rest: string)
    ensures TextRead(job, codec, p, Head(e) + rest) == TextRead(job, codec, p, rest)
  {
    if e.O? {
      assert "" + rest == rest;
    } else {
      var x := HeadLine(e);
      SilentLine(job, codec, p, x, rest);
    }
  }

  lemma ReadBody(job: Attempt.Job, codec: Codec, p: Streams.Protocol, b: string)
    requires OneLine(b)
    ensures
      TextRead(job, codec, p, Body(b)) ==
      if b == "[DONE]" then EventText(Decode(codec, p, None))
      else if job.json.valid(b) then EventText(codec.lookup(p, b))
      else ""
  {
    var line := "data: " + b + "\n";
    DataLine(b);
    assert line[..|line| - 1] == "data: " + b;
    Attempt.FirstNewline(line, |line| - 1);
    ReadLine(job, codec, p, line);
    ReadAppend(job, codec, p, line, "\n");
    Attempt.FirstNewline("\n", 0);
    ReadLine(job, codec, p, "\n");
  }

  lemma BodyShowsText(job: Attempt.Job, codec: Codec, e: Event)
    requires Legible(job, codec)
    ensures OneLine(Payload(codec, e))
    ensures TextRead(job, codec, ProtocolOf(e), Body(Sent(job, Payload(codec, e)))) == EventText(e)
  {
    var b := Payload(codec, e);
    if e == O(Done) {
      DataLine(b);
      ReadBody(job, codec, ProtocolOf(e), b);
    } else {
      ObjectShowsText(job, codec, ProtocolOf(e), b, EventText(e));
      ObjectShowsText(
        job, codec, ProtocolOf(e), ModelRewrite.RewriteModelFields(job.json, b, job.alias), EventText(e));
    }
  }

  lemma ObjectShowsText(job: Attempt.Job, codec: Codec, p: Streams.Protocol, b: string, text: string)
    requires Shows(job, codec, p, b, text)
    ensures OneLine(b) && TextRead(job, codec, p, Body(b)) == text
  {
    ReadBody(job, codec, p, b);
  }

  /** A framed event is read as its text, whether or not its model fields were rewritten. */
  lemma FrameShowsText(job: Attempt.Job, codec: Codec, e: Event)
    requires Legible(job, codec)
    ensures Attempt.EndsLine(Frame(codec, e)) && Attempt.EndsLine(Attempt.Rewrites(job, Frame(codec, e)))
    ensures TextRead(job, codec, ProtocolOf(e), Attempt.Rewrites(job, Frame(codec, e))) == EventText(e)
  {
    BodyShowsText(job, codec, e);
    RewrittenFrame(job, codec, e);
    ReadHead(job, codec, ProtocolOf(e), e, Body(Sent(job, Payload(codec, e))));
  }

  // ---- whole streams ----

  /** What a client is sent for an event. */
  function Shown(job: Attempt.Job, codec: Codec): Event -> string {
    e => Attempt.Rewrites(job, Frame(codec, e))
  }

  function SentAll(job: Attempt.Job, codec: Codec, events: seq<Event>): string {
    Gather(Shown(job, codec), events)
  }

  /** Emitting a fragment of several events at once sends each of them rewritten. */
  lemma {:induction false} EmittedFrames(job: Attempt.Job, codec: Codec, events: seq<Event>)
    requires Legible(job, codec)
    ensures Attempt.Emitted(job, FrameAll(codec, events)) == SentAll(job, codec, events)
  {
    if events != [] {
      EmittedFrames(job, codec, events[1..]);
      FrameShowsText(job, codec, events[0]);
      Attempt.RewritesSplit(job, Frame(codec, events[0]), FrameAll(codec, events[1..]));
      ModelRewrite.RewriteEmpty(job.json, job.alias);
    }
  }

  function Stepper(valid: string -> bool, to: Streams.Protocol)
    : (Streams.State, Event) -> (Streams.State, seq<Event>)
  {
    (st, e) => Step(valid, to, st, e)
  }

  /** The bytes emitted for a run of chunks are those of the events the transform makes of them. */
  lemma {:induction false} EmittedRun(
      job: Attempt.Job, pair: Attempt.Pair, codec: Codec, from: Streams.Protocol, to: Streams.Protocol,
      st: Streams.State, chunks: seq<Option<string>>)
    requires Legible(job, codec) && Implements(pair, codec, job.json.valid, from, to)
    ensures Attempt.EmittedAll(job, Attempt.Frags(pair, st, chunks)) ==
            SentAll(job, codec, Streams.Run(Stepper(job.json.valid, to), st, Decoded(codec, from, chunks)).1)
    decreases |chunks|
  {
    if chunks != [] {
      var step, e := Stepper(job.json.valid, to), Decode(codec, from, chunks[0]);
      var (after, out) := step(st, e);
      assert pair.chunk(chunks[0], st) == (Some(FrameAll(codec, out)), after);
      EmittedRun(job, pair, codec, from, to, after, chunks[1..]);
      var rest := Decoded(codec, from, chunks[1..]);
      assert ([e] + rest)[1..] == rest;
      EmittedFrames(job, codec, out);
      GatherAppend(Shown(job, codec), out, Streams.Run(step, after, rest).1);
      var frags := Attempt.Frags(pair, after, chunks[1..]);
      assert ([FrameAll(codec, out)] + frags)[1..] == frags;
    }
  }

  lemma {:induction false} SentShowsText(job: Attempt.Job, codec: Codec, p: Streams.Protocol, events: seq<Event>)
    requires Legible(job, codec)
    requires forall e :: e in events ==> ProtocolOf(e) == p
    ensures TextRead(job, codec, p, SentAll(job, codec, events)) == Gather(EventText, events)
  {
    if events != [] {
      assert events[0] in events;
      SentShowsText(job, codec, p, events[1..]);
      FrameShowsText(job, codec, events[0]);
      ReadAppend(job, codec, p, Attempt.Rewrites(job, Frame(codec, events[0])), SentAll(job, codec, events[1..]));
    }
  }

  lemma {:induction false} RunSpeaks(
      valid: string -> bool, to: Streams.Protocol, st: Streams.State, events: seq<Event>)
    ensures forall o :: o in Streams.Run(Stepper(valid, to), st, events).1 ==> ProtocolOf(o) == to
    decreases |events|
  {
    if events != [] {
      StepSpeaks(valid, to, st, events[0]);
      RunSpeaks(valid, to, Step(valid, to, st, events[0]).0, events[1..]);
    }
  }

  lemma RunText(valid: string -> bool, to: Streams.Protocol, st: Streams.State, events: seq<Event>)
    ensures Gather(EventText, Streams.Run(Stepper(valid, to), st, events).1) == Gather(EventText, events)
  {
    forall st, e ensures Gather(EventText, Stepper(valid, to)(st, e).1) == EventText(e) {
      StepKeepsText(valid, to, st, e);
    }
    Streams.RunKeepsText(Stepper(valid, to), EventText, EventText, st, events);
  }

  /** Whatever lines the upstream sends, the bytes a translating relay sends the client hold, for a reader of the
      client's protocol, the text a reader of the upstream's protocol finds in those lines. */
  lemma TranslatedTextArrives(
      job: Attempt.Job, codec: Codec, from: Streams.Protocol, to: Streams.Protocol, text: string)
    requires job.pair.Some? && Implements(job.pair.value, codec, job.json.valid, from, to) && Legible(job, codec)
    ensures TextRead(job, codec, to, Attempt.FlowLines(job, Attempt.Lines(text), Attempt.Start("")).sent) ==
            TextRead(job, codec, from, text)
  {
    var chunks := Attempt.Chunks(job, Attempt.Lines(text));
    var events := Decoded(codec, from, chunks);
    var step := Stepper(job.json.valid, to);
    var out := Streams.Run(step, Streams.INITIAL, events).1;
    Attempt.TranslationSends(job, Attempt.Lines(text), Attempt.Start(""));
    assert "" + SentAll(job, codec, out) == SentAll(job, codec, out);
    EmittedRun(job, job.pair.value, codec, from, to, Streams.INITIAL, chunks);
    RunSpeaks(job.json.valid, to, Streams.INITIAL, events);
    SentShowsText(job, codec, to, out);
    RunText(job.json.valid, to, Streams.INITIAL, events);
  }

  /** What the client received and what the upstream sent hold the same text, each read in its own protocol, whenever
      the JSON library obeys its laws. */
  ghost predicate SameText(e: Pipeline.Env, codec: Codec, route: Pipeline.Route, received: string, upstream: string) {
    var job := Pipeline.JobOf(e, route);
    && e.req.protocol in PROTOCOLS && route.model.protocol in PROTOCOLS
    && (Legible(job, codec) ==>
          TextRead(job, codec, PROTOCOLS[e.req.protocol], received) ==
          TextRead(job, codec, PROTOCOLS[route.model.protocol], upstream))
  }

  lemma TextIsDelivered(e: Pipeline.Env, codec: Codec, route: Pipeline.Route, upstream: Attempt.Upstream)
    requires Registered(e.tools, codec)
    requires e.req.isStream && upstream.Responded? && !Attempt.PassesError(Pipeline.JobOf(e, route), upstream)
    requires route.translator.Some? && (e.req.protocol, route.model.protocol) in e.tools.translators
    requires route.translator.value == e.tools.translators[(e.req.protocol, route.model.protocol)]
    ensures SameText(e, codec, route, Pipeline.Delivered(e, route, upstream, ""),
                     Attempt.Consumed(upstream.body, upstream.ending))
  {
    var job, key := Pipeline.JobOf(e, route), (e.req.protocol, route.model.protocol);
    assert key.0 in PROTOCOLS && key.1 in PROTOCOLS;
    if Legible(job, codec) {
      assert Implements(job.pair.value, codec, job.json.valid, PROTOCOLS[key.1], PROTOCOLS[key.0]);
      TranslatedTextArrives(
        job, codec, PROTOCOLS[key.1], PROTOCOLS[key.0], Attempt.Consumed(upstream.body, upstream.ending));
    }
  }

  lemma TranslatorIsRegistered(
      e: Pipeline.Env, inFlight: map<string, int>, cand: Indexes.Candidate, w: Pipeline.Weather, v: Pipeline.Verdict)
    requires v == Pipeline.JudgeRoute(e, inFlight, "", cand, w) && v.Served? && v.info.route.translator.Some?
    ensures
      var key := (e.req.protocol, v.info.route.model.protocol);
      key in e.tools.translators && v.info.route.translator.value == e.tools.translators[key]
  {
    assert Pipeline.RouteOf(e, cand) == Some(v.info.route);
  }

  /** The turn that commits a translated stream. */
  lemma TurnDeliversText(
      e: Pipeline.Env, codec: Codec, inFlight: map<string, int>, cand: Indexes.Candidate, w: Pipeline.Weather,
      v: Pipeline.Verdict, received: string, response: Archive.Body)
    requires Registered(e.tools, codec)
    requires Pipeline.StreamArchived(e, inFlight, "", cand, w, v, received, response)
    requires v.info.route.translator.Some?
    ensures response.Stream? && SameText(e, codec, v.info.route, received, response.text)
  {
    Pipeline.StreamServedIs(e, inFlight, "", cand, w);
    TranslatorIsRegistered(e, inFlight, cand, w, v);
    TextIsDelivered(e, codec, v.info.route, w.upstream);
  }

  /** Over a whole request, failed attempts and all: when a translated stream is archived, the client's bytes and the
      archived upstream bytes hold the same text. */
  lemma ArchivedTextIsDelivered(
      e: Pipeline.Env, codec: Codec, history: seq<Failover.Event>, inFlight: map<string, int>,
      cands: seq<Indexes.Candidate>, ws: seq<Pipeline.Weather>, trail: seq<Pipeline.Verdict>)
    requires |ws| == |cands| && Registered(e.tools, codec)
    requires trail == Pipeline.Serve(e, history, inFlight, "", cands, ws)
    requires e.req.isStream && Pipeline.Archived(e, trail, ws) != []
    requires trail[|trail| - 1].info.route.translator.Some?
    ensures
      var response := Pipeline.Archived(e, trail, ws)[0].response;
      && response.Stream?
      && SameText(e, codec, trail[|trail| - 1].info.route, Pipeline.Received(e, trail, ws, ""), response.text)
  {
    var n := |trail| - 1;
    Pipeline.ArchivedTurn(e, history, inFlight, "", cands, ws, trail);
    TurnDeliversText(
      e, codec, inFlight, cands[n], ws[n], trail[n], Pipeline.Received(e, trail, ws, ""),
      Pipeline.Archived(e, trail, ws)[0].response);
  }
}
