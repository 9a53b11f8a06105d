/** What each transform of internal/translate/stream.go makes of the announcements, texts and endings of a whole stream,
    told from the events alone. */
module Signals {
  import opened Wrappers
  import opened Strings
  import opened Lists
  import opened Wire
  import opened Streams
  import opened ToolCalls

  /** What a reader takes from a stream: whose answer begins, its words, a tool call, why it ends, and that it is
      over. */
  datatype Signal =
    | Opening(model: string)
    | Words(model: string, text: string)
    | Calling(model: string)
    | Closing(model: string, reason: string)
    | Over
    | Noise

  // ---- what a reader of each protocol takes from a stream; block brackets are left to Brackets ----

  function FromAnthropic(u: (), e: AnthropicEvent): seq<Signal> {
    match e
    case MessageStart(model) => [Opening(model)]
    case BlockDelta(_, TextDelta(text)) => [Words("", text)]
    case BlockDelta(_, _) => [Noise]
    case BlockStart(_, block) => if block.TextBlock? then [] else [Noise]
    case MessageDelta(reason) => [Closing("", reason)]
    case MessageStop => [Over]
    case OtherEvent => [Noise]
    case _ => []
  }

  function FromOpenAI(u: (), e: OpenAIEvent): seq<Signal> {
    match e
    case Done => [Over]
    case Chunk(model, Some(delta), finish) =>
      if finish.Some? then [Closing(model, finish.value)]
      else if delta.role == "assistant" then [Opening(model)]
      else if delta.role != "" then [Noise]
      else if delta.toolCalls != [] then [Calling(model)]
      else [Words(model, delta.content)]
    case _ => [Noise]
  }

  function FromCodex(u: (), e: CodexEvent): seq<Signal> {
    match e
    case Created(model) => [Opening(model)]
    case OutputTextDelta(text) => [Words("", text)]
    case Completed(model) => [Closing(model, "")]
    case _ => [Noise]
  }

  // ---- what the events so far have announced ----

  /** The model of the last message_start. */
  function AnthropicModel(events: seq<AnthropicEvent>): string {
    if events == [] then ""
    else if Last(events).MessageStart? then Last(events).model
    else AnthropicModel(Front(events))
  }

  /** The model of the last response.created. */
  function CreatedModel(events: seq<CodexEvent>): string {
    if events == [] then ""
    else if Last(events).Created? then Last(events).model
    else CreatedModel(Front(events))
  }

  /** The last model a chunk named. */
  function ChunkModel(events: seq<OpenAIEvent>): string {
    if events == [] then ""
    else if Last(events).Chunk? && Last(events).model != "" then Last(events).model
    else ChunkModel(Front(events))
  }

  // ---- what each target protocol owes its reader ----

  /** To OpenAI: every chunk names the announced model, every ending gives its reason. */
  function OwedToOpenAI(events: seq<AnthropicEvent>): seq<Signal> {
    if events == [] then []
    else
      var model := AnthropicModel(events);
      OwedToOpenAI(Front(events)) +
      match Last(events)
      case MessageStart(m) => [Opening(m)]
      case BlockDelta(_, TextDelta(text)) => [Words(model, text)]
      case BlockStop(index) => if MetaOf(Front(events), index).Some? then [Calling(model)] else []
      case MessageDelta(reason) => [Closing(model, UnmapFinishReason(reason))]
      case MessageStop => [Over]
      case _ => []
  }

  function OwedToCodex(events: seq<AnthropicEvent>): seq<Signal> {
    if events == [] then []
    else
      OwedToCodex(Front(events)) +
      match Last(events)
      case MessageStart(m) => [Opening(m)]
      case BlockDelta(_, TextDelta(text)) => [Words("", text)]
      case MessageDelta(_) => [Closing(AnthropicModel(events), "")]
      case _ => []
  }

  /** The texts and finish of one chunk. */
  function ChunkWords(e: OpenAIEvent): seq<Signal> {
    if e.Chunk? && e.delta.Some? && e.delta.value.content != "" then [Words("", e.delta.value.content)] else []
  }

  function ChunkFinish(e: OpenAIEvent): Option<string> {
    if e.Chunk? then e.finish else None
  }

  /** From OpenAI: one announcement, with the first event, under the model it names. */
  function OwedByChunksToAnthropic(events: seq<OpenAIEvent>): seq<Signal> {
    if events == [] then []
    else
      OwedByChunksToAnthropic(Front(events))
      + ToAnthropicReader(|events| == 1, ChunkModel(events), Last(events))
  }

  function ToAnthropicReader(first: bool, model: string, e: OpenAIEvent): seq<Signal> {
    (if first then [Opening(model)] else []) + ChunkWords(e)
    + if ChunkFinish(e).Some? then [Closing("", MapFinishReason(ChunkFinish(e).value)), Over] else []
  }

  function OwedByChunksToCodex(events: seq<OpenAIEvent>): seq<Signal> {
    if events == [] then []
    else
      OwedByChunksToCodex(Front(events)) + ToCodexReader(|events| == 1, ChunkModel(events), Last(events))
  }

  function ToCodexReader(first: bool, model: string, e: OpenAIEvent): seq<Signal> {
    (if first then [Opening(model)] else []) + ChunkWords(e)
    + if ChunkFinish(e).Some? then [Closing(model, "")] else []
  }

  function OwedByCodexToAnthropic(events: seq<CodexEvent>): seq<Signal> {
    if events == [] then []
    else
      OwedByCodexToAnthropic(Front(events)) +
      match Last(events)
      case Created(m) => [Opening(m)]
      case InProgress(m) => [Opening(m)]
      case OutputTextDelta(text) => [Words("", text)]
      case Completed(_) => [Closing("", "end_turn"), Over]
      case OtherItem => []
  }

  function OwedByCodexToOpenAI(events: seq<CodexEvent>): seq<Signal> {
    if events == [] then []
    else
      var model := CreatedModel(events);
      OwedByCodexToOpenAI(Front(events)) +
      match Last(events)
      case Created(m) => [Opening(m)]
      case OutputTextDelta(text) => [Words(model, text)]
      case Completed(_) => [Closing(model, "stop"), Over]
      case _ => []
  }

  lemma Unsnoc<T>(events: seq<T>)
    requires events != []
    ensures Front(events) + [Last(events)] == events
  {
  }

  lemma HeardOne<E>(hear: ((), E) -> seq<Signal>, e: E)
    ensures FlatMap(hear, (), [e]) == hear((), e)
  {
    FlatMapOne(hear, (), e);
  }

  lemma HeardTwo<E>(hear: ((), E) -> seq<Signal>, d: E, e: E)
    ensures FlatMap(hear, (), [d, e]) == hear((), d) + hear((), e)
  {
    assert [d, e] == [d] + [e];
    FlatMapAppend(hear, (), [d], [e]);
    FlatMapOne(hear, (), d);
    FlatMapOne(hear, (), e);
  }

  // ---- anthropic -> openai_completion ----

  lemma AnthropicToOpenAISays(valid: string -> bool, st: State, e: AnthropicEvent)
    ensures
      var (after, out) := AnthropicToOpenAI(valid, st, e);
      && after.model == (if e.MessageStart? then e.model else st.model)
      && FlatMap(FromOpenAI, (), out) ==
         match e
         case MessageStart(m) => [Opening(m)]
         case BlockDelta(_, TextDelta(text)) => [Words(st.model, text)]
         case BlockStop(index) => if MetaAt(st, index).Some? then [Calling(st.model)] else []
         case MessageDelta(reason) => [Closing(st.model, UnmapFinishReason(reason))]
         case MessageStop => [Over]
         case _ => []
  {
    var out := AnthropicToOpenAI(valid, st, e).1;
    if out != [] {
      assert out == [out[0]];
      HeardOne(FromOpenAI, out[0]);
    }
  }

  /** For every event sequence: one role chunk per message_start under its model, one finish chunk per message_delta
      with its reason, one end marker per message_stop, in order, and every chunk names the last announced model. */
  lemma {:induction false} SpeaksOpenAI(valid: string -> bool, events: seq<AnthropicEvent>)
    ensures
      var step := (st, e) => AnthropicToOpenAI(valid, st, e);
      var (st, out) := Run(step, INITIAL, events);
      st.model == AnthropicModel(events) && FlatMap(FromOpenAI, (), out) == OwedToOpenAI(events)
    ensures
      var st := Run((st, e) => AnthropicToOpenAI(valid, st, e), INITIAL, events).0;
      forall index :: MetaAt(st, index) == MetaOf(events, index)
  {
    if events != [] {
      var step := (st, e) => AnthropicToOpenAI(valid, st, e);
      var front, e := Front(events), Last(events);
      Unsnoc(events);
      SpeaksOpenAI(valid, front);
      RunSnoc(step, INITIAL, front, e);
      var (st, out) := Run(step, INITIAL, front);
      AnthropicToOpenAISays(valid, st, e);
      FlatMapAppend(FromOpenAI, (), out, step(st, e).1);
      forall index ensures MetaAt(step(st, e).0, index) == MetaOf(events, index) {
        StateFollows(valid, st, e, index);
        Snoc(front, e, index);
      }
    }
  }

  // ---- anthropic -> codex ----

  lemma AnthropicToCodexSays(st: State, e: AnthropicEvent)
    ensures
      var (after, out) := AnthropicToCodex(st, e);
      && after.model == (if e.MessageStart? then e.model else st.model)
      && FlatMap(FromCodex, (), out) ==
         match e
         case MessageStart(m) => [Opening(m)]
         case BlockDelta(_, TextDelta(text)) => [Words("", text)]
         case MessageDelta(_) => [Closing(st.model, "")]
         case _ => []
  {
    var out := AnthropicToCodex(st, e).1;
    if out != [] {
      assert out == [out[0]];
      HeardOne(FromCodex, out[0]);
    }
  }

  /** For every event sequence: one response.created per message_start under its model, and one response.completed per
      message_delta under the last announced model, in order. */
  lemma {:induction false} SpeaksCodex(events: seq<AnthropicEvent>)
    ensures
      var (st, out) := Run(AnthropicToCodex, INITIAL, events);
      st.model == AnthropicModel(events) && FlatMap(FromCodex, (), out) == OwedToCodex(events)
  {
    if events != [] {
      var front, e := Front(events), Last(events);
      Unsnoc(events);
      SpeaksCodex(front);
      RunSnoc(AnthropicToCodex, INITIAL, front, e);
      var (st, out) := Run(AnthropicToCodex, INITIAL, front);
      AnthropicToCodexSays(st, e);
      FlatMapAppend(FromCodex, (), out, AnthropicToCodex(st, e).1);
    }
  }

  // ---- openai_completion -> anthropic ----

  lemma OpenAIToAnthropicSays(st: State, e: OpenAIEvent)
    ensures
      var (after, out) := OpenAIToAnthropic(st, e);
      var model := if e.Chunk? && e.model != "" then e.model else st.model;
      && after.model == model && after.messageStarted
      && FlatMap(FromAnthropic, (), out) == ToAnthropicReader(!st.messageStarted, model, e)
  {
    var (model, delta, finish) := Fields(e);
    var (st1, start) := StartMessage(KeepModel(st, model));
    var (st2, text) := EmitText(st1, delta);
    var (st3, stop) := FinishMessage(st2, finish);
    FlatMapAppend(FromAnthropic, (), start + text, stop);
    FlatMapAppend(FromAnthropic, (), start, text);
    StartSays(KeepModel(st, model));
    TextSays(st1, delta);
    FinishSays(st2, finish);
  }

  lemma StartSays(st: State)
    ensures FlatMap(FromAnthropic, (), StartMessage(st).1) == if st.messageStarted then [] else [Opening(st.model)]
  {
    HeardOne(FromAnthropic, MessageStart(st.model));
  }

  lemma TextSays(st: State, delta: Option<OpenAIDelta>)
    ensures FlatMap(FromAnthropic, (), EmitText(st, delta).1) ==
            if delta.Some? && delta.value.content != "" then [Words("", delta.value.content)] else []
  {
    if delta.Some? && delta.value.content != "" {
      var piece := BlockDelta(st.nextBlockIndex, TextDelta(delta.value.content));
      HeardTwo(FromAnthropic, BlockStart(st.nextBlockIndex, TextBlock), piece);
      HeardOne(FromAnthropic, piece);
      assert EmitText(st, delta).1 ==
             if st.openTextBlock then [piece] else [BlockStart(st.nextBlockIndex, TextBlock), piece];
    }
  }

  lemma EndSays(stop: seq<AnthropicEvent>, reason: string)
    requires stop == [] || (|stop| == 1 && stop[0].BlockStop?)
    ensures FlatMap(FromAnthropic, (), stop + [MessageDelta(reason), MessageStop]) == [Closing("", reason), Over]
  {
    FlatMapAppend(FromAnthropic, (), stop, [MessageDelta(reason), MessageStop]);
    HeardTwo(FromAnthropic, MessageDelta(reason), MessageStop);
    if stop != [] {
      HeardOne(FromAnthropic, stop[0]);
      assert stop == [stop[0]];
    }
  }

  lemma FinishSays(st: State, finish: Option<string>)
    ensures FlatMap(FromAnthropic, (), FinishMessage(st, finish).1) ==
            if finish.Some? then [Closing("", MapFinishReason(finish.value)), Over] else []
  {
    if finish.Some? {
      EndSays(if st.openTextBlock then [BlockStop(st.nextBlockIndex)] else [], MapFinishReason(finish.value));
      assert [] + [MessageDelta(MapFinishReason(finish.value)), MessageStop] ==
             [MessageDelta(MapFinishReason(finish.value)), MessageStop];
    }
  }

  /** For every chunk sequence: one message_start, with the first event, under the model it names, and the ending of
      each finish with its reason. */
  lemma {:induction false} SpeaksAnthropicToChunks(events: seq<OpenAIEvent>)
    ensures
      var (st, out) := Run(OpenAIToAnthropic, INITIAL, events);
      && st.model == ChunkModel(events) && st.messageStarted == (events != [])
      && FlatMap(FromAnthropic, (), out) == OwedByChunksToAnthropic(events)
  {
    if events != [] {
      var front, e := Front(events), Last(events);
      Unsnoc(events);
      SpeaksAnthropicToChunks(front);
      RunSnoc(OpenAIToAnthropic, INITIAL, front, e);
      var (st, out) := Run(OpenAIToAnthropic, INITIAL, front);
      OpenAIToAnthropicSays(st, e);
      FlatMapAppend(FromAnthropic, (), out, OpenAIToAnthropic(st, e).1);
      assert |events| == 1 <==> front == [];
    }
  }

  // ---- openai_completion -> codex ----

  lemma OpenAIToCodexSays(st: State, e: OpenAIEvent)
    ensures
      var (after, out) := OpenAIToCodex(st, e);
      var model := if e.Chunk? && e.model != "" then e.model else st.model;
      && after.model == model && after.messageStarted
      && FlatMap(FromCodex, (), out) == ToCodexReader(!st.messageStarted, model, e)
  {
    var (model, delta, finish) := Fields(e);
    var st1 := KeepModel(st, model);
    var start := if st1.messageStarted then [] else [Created(st1.model)];
    var text := if delta.Some? && delta.value.content != "" then [OutputTextDelta(delta.value.content)] else [];
    var stop := if finish.Some? then [Completed(st1.model)] else [];
    FlatMapAppend(FromCodex, (), start + text, stop);
    FlatMapAppend(FromCodex, (), start, text);
    CodexPartsSay(st1.model, if text == [] then "" else delta.value.content);
  }

  lemma CodexPartsSay(model: string, text: string)
    ensures FlatMap(FromCodex, (), [Created(model)]) == [Opening(model)]
    ensures FlatMap(FromCodex, (), [Completed(model)]) == [Closing(model, "")]
    ensures FlatMap(FromCodex, (), [OutputTextDelta(text)]) == [Words("", text)]
  {
    HeardOne(FromCodex, Created(model));
    HeardOne(FromCodex, Completed(model));
    HeardOne(FromCodex, OutputTextDelta(text));
  }

  /** For every chunk sequence: one response.created, with the first event, under the model it names, and one
      response.completed per finish, under the last model named. */
  lemma {:induction false} SpeaksCodexToChunks(events: seq<OpenAIEvent>)
    ensures
      var (st, out) := Run(OpenAIToCodex, INITIAL, events);
      && st.model == ChunkModel(events) && st.messageStarted == (events != [])
      && FlatMap(FromCodex, (), out) == OwedByChunksToCodex(events)
  {
    if events != [] {
      var front, e := Front(events), Last(events);
      Unsnoc(events);
      SpeaksCodexToChunks(front);
      RunSnoc(OpenAIToCodex, INITIAL, front, e);
      var (st, out) := Run(OpenAIToCodex, INITIAL, front);
      OpenAIToCodexSays(st, e);
      FlatMapAppend(FromCodex, (), out, OpenAIToCodex(st, e).1);
      assert |events| == 1 <==> front == [];
    }
  }

  // ---- codex -> anthropic ----

  lemma CodexToAnthropicSays(st: State, e: CodexEvent)
    ensures FlatMap(FromAnthropic, (), CodexToAnthropic(st, e).1) ==
            match e
            case Created(m) => [Opening(m)]
            case InProgress(m) => [Opening(m)]
            case OutputTextDelta(text) => [Words("", text)]
            case Completed(_) => [Closing("", "end_turn"), Over]
            case OtherItem => []
  {
    match e
    case Created(m) => HeardOne(FromAnthropic, MessageStart(m));
    case InProgress(m) => HeardOne(FromAnthropic, MessageStart(m));
    case OutputTextDelta(text) =>
      var piece := BlockDelta(st.nextBlockIndex, TextDelta(text));
      HeardTwo(FromAnthropic, BlockStart(st.nextBlockIndex, TextBlock), piece);
      HeardOne(FromAnthropic, piece);
      assert CodexToAnthropic(st, e).1 ==
             if st.openTextBlock then [piece] else [BlockStart(st.nextBlockIndex, TextBlock), piece];
    case Completed(_) => EndSays(if st.openTextBlock then [BlockStop(st.nextBlockIndex)] else [], "end_turn");
    case OtherItem =>
  }

  /** For every event sequence: one message_start per announcement under its model, and one ending per completion. */
  lemma {:induction false} SpeaksAnthropicToCodex(events: seq<CodexEvent>)
    ensures FlatMap(FromAnthropic, (), Run(CodexToAnthropic, INITIAL, events).1) == OwedByCodexToAnthropic(events)
  {
    if events != [] {
      var front, e := Front(events), Last(events);
      Unsnoc(events);
      SpeaksAnthropicToCodex(front);
      RunSnoc(CodexToAnthropic, INITIAL, front, e);
      var (st, out) := Run(CodexToAnthropic, INITIAL, front);
      CodexToAnthropicSays(st, e);
      FlatMapAppend(FromAnthropic, (), out, CodexToAnthropic(st, e).1);
    }
  }

  // ---- codex -> openai_completion ----

  lemma CodexToOpenAISays(st: State, e: CodexEvent)
    ensures
      var (after, out) := CodexToOpenAI(st, e);
      && after.model == (if e.Created? then e.model else st.model)
      && FlatMap(FromOpenAI, (), out) ==
         match e
         case Created(m) => [Opening(m)]
         case OutputTextDelta(text) => [Words(st.model, text)]
         case Completed(_) => [Closing(st.model, "stop"), Over]
         case _ => []
  {
    match e
    case Created(m) => HeardOne(FromOpenAI, RoleChunk(m));
    case OutputTextDelta(text) => HeardOne(FromOpenAI, ContentChunk(st.model, text));
    case Completed(_) => HeardTwo(FromOpenAI, FinishChunk(st.model, "stop"), Done);
    case _ =>
  }

  /** For every event sequence: one role chunk per response.created under its model, and per completion a finish chunk
      and the end marker; every chunk names the last created model. */
  lemma {:induction false} SpeaksOpenAIToCodex(events: seq<CodexEvent>)
    ensures
      var (st, out) := Run(CodexToOpenAI, INITIAL, events);
      st.model == CreatedModel(events) && FlatMap(FromOpenAI, (), out) == OwedByCodexToOpenAI(events)
  {
    if events != [] {
      var front, e := Front(events), Last(events);
      Unsnoc(events);
      SpeaksOpenAIToCodex(front);
      RunSnoc(CodexToOpenAI, INITIAL, front, e);
      var (st, out) := Run(CodexToOpenAI, INITIAL, front);
      CodexToOpenAISays(st, e);
      FlatMapAppend(FromOpenAI, (), out, CodexToOpenAI(st, e).1);
    }
  }

  // ---- finish reasons ----

  /** The reasons both protocols have survive the way there and back; every other becomes a plain stop. */
  lemma ReasonsRoundTrip(r: string)
    ensures MapFinishReason(UnmapFinishReason(r)) ==
            if r == "max_tokens" || r == "tool_use" then r else "end_turn"
    ensures UnmapFinishReason(MapFinishReason(r)) ==
            if r == "length" || r == "tool_calls" then r else if r == "function_call" then "tool_calls" else "stop"
  {
  }
}
