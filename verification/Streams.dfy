/** internal/translate/stream.go: the six chunk transforms over one mutable stream state. */
module Streams {
  import opened Wrappers
  import opened Strings
  import opened Wire

  datatype ToolMeta = ToolMeta(id: string, name: string)

  /** The contents of a StreamState. */
  datatype State = State(
    messageStarted: bool,
    model: string,
    nextBlockIndex: int,
    openTextBlock: bool,
    toolMeta: map<int, ToolMeta>,
    toolArgs: map<int, string>,
    toolIndexSeq: int)

  const INITIAL := State(false, "", 0, false, map[], map[], 0)

  /** The object the transforms of one stream share and update. */
  class StreamState {
    var messageStarted: bool
    var model: string
    var nextBlockIndex: int
    var openTextBlock: bool
    var toolMeta: map<int, ToolMeta>
    var toolArgs: map<int, string>
    var toolIndexSeq: int

    constructor ()
      ensures View() == INITIAL
    {
      messageStarted, model, nextBlockIndex, openTextBlock := false, "", 0, false;
      toolMeta, toolArgs, toolIndexSeq := map[], map[], 0;
    }

    function View(): State
      reads this
    {
      State(messageStarted, model, nextBlockIndex, openTextBlock, toolMeta, toolArgs, toolIndexSeq)
    }
  }

  // ---- finish reasons and tool arguments ----

  function MapFinishReason(s: string): string {
    if s == "stop" then "end_turn"
    else if s == "length" then "max_tokens"
    else if s == "tool_calls" || s == "function_call" then "tool_use"
    else "end_turn"
  }

  function UnmapFinishReason(s: string): string {
    if s == "end_turn" || s == "stop_sequence" then "stop"
    else if s == "max_tokens" then "length"
    else if s == "tool_use" then "tool_calls"
    else "stop"
  }

  /** The text if it is a JSON object or array, else "{}"; `valid` is the JSON library's syntax check. */
  function EnsureJSONObject(valid: string -> bool, s: string): string {
    var t := TrimSpace(s);
    if t != "" && (t[0] == '{' || t[0] == '[') && valid(t) then t else "{}"
  }

  // ---- chunk builders ----

  function RoleChunk(model: string): OpenAIEvent {
    Chunk(model, Some(OpenAIDelta("assistant", "", [])), None)
  }

  function ContentChunk(model: string, text: string): OpenAIEvent {
    Chunk(model, Some(OpenAIDelta("", text, [])), None)
  }

  function ToolCallChunk(model: string, call: ToolCall): OpenAIEvent {
    Chunk(model, Some(OpenAIDelta("", "", [call])), None)
  }

  function FinishChunk(model: string, reason: string): OpenAIEvent {
    Chunk(model, Some(OpenAIDelta("", "", [])), Some(reason))
  }

  /** What gjson reads from an OpenAI event: the nil chunk has no fields. */
  function Fields(e: OpenAIEvent): (string, Option<OpenAIDelta>, Option<string>) {
    match e
    case Chunk(model, delta, finish) => (model, delta, finish)
    case Done => ("", None, None)
  }

  // ---- anthropic -> openai_completion ----

  function AnthropicToOpenAI(valid: string -> bool, st: State, e: AnthropicEvent): (State, seq<OpenAIEvent>) {
    match e
    case MessageStart(model) =>
      (st.(messageStarted := true, model := model), [RoleChunk(model)])
    case BlockStart(index, ToolUseBlock(id, name)) =>
      (st.(toolMeta := st.toolMeta[index := ToolMeta(id, name)]), [])
    case BlockDelta(_, TextDelta(text)) =>
      (st, [ContentChunk(st.model, text)])
    case BlockDelta(index, InputJsonDelta(piece)) =>
      var sofar := if index in st.toolArgs then st.toolArgs[index] else "";
      (st.(toolArgs := st.toolArgs[index := sofar + piece]), [])
    case BlockStop(index) =>
      if index in st.toolMeta then
        var args := if index in st.toolArgs then st.toolArgs[index] else "";
        var call := ToolCall(st.toolIndexSeq, st.toolMeta[index].id, st.toolMeta[index].name,
                             EnsureJSONObject(valid, args));
        (st.(toolIndexSeq := st.toolIndexSeq + 1), [ToolCallChunk(st.model, call)])
      else (st, [])
    case MessageDelta(reason) =>
      (st, [FinishChunk(st.model, UnmapFinishReason(reason))])
    case MessageStop => (st, [Done])
    case _ => (st, [])
  }

  method AppendArgs(index: int, piece: string, st: StreamState)
    modifies st
    ensures st.View() ==
            old(st.View()).(toolArgs := old(st.toolArgs)[
                              index := (if index in old(st.toolArgs) then old(st.toolArgs)[index] else "") + piece])
  {
    if index !in st.toolArgs {
      st.toolArgs := st.toolArgs[index := ""];
    }
    st.toolArgs := st.toolArgs[index := st.toolArgs[index] + piece];
  }

  method StreamAnthropicToOpenAI(valid: string -> bool, e: AnthropicEvent, st: StreamState)
    returns (out: seq<OpenAIEvent>)
    modifies st
    ensures st.View() == AnthropicToOpenAI(valid, old(st.View()), e).0
    ensures out == AnthropicToOpenAI(valid, old(st.View()), e).1
  {
    out := [];
    match e {
      case MessageStart(model) =>
        st.messageStarted := true;
        st.model := model;
        out := [RoleChunk(st.model)];
      case BlockStart(index, block) =>
        if block.ToolUseBlock? {
          st.toolMeta := st.toolMeta[index := ToolMeta(block.id, block.name)];
        }
      case BlockDelta(index, delta) => out := StreamDelta(valid, index, delta, st);
      case BlockStop(index) =>
        if index in st.toolMeta {
          var call := CloseToolBlock(valid, index, st);
          out := [ToolCallChunk(st.model, call)];
        }
      case MessageDelta(reason) => out := [FinishChunk(st.model, UnmapFinishReason(reason))];
      case MessageStop => out := [Done];
      case OtherEvent =>
    }
  }

  method StreamDelta(valid: string -> bool, index: int, delta: Delta, st: StreamState) returns (out: seq<OpenAIEvent>)
    modifies st
    ensures st.View() == AnthropicToOpenAI(valid, old(st.View()), BlockDelta(index, delta)).0
    ensures out == AnthropicToOpenAI(valid, old(st.View()), BlockDelta(index, delta)).1
  {
    out := [];
    if delta.TextDelta? {
      out := [ContentChunk(st.model, delta.text)];
    } else if delta.InputJsonDelta? {
      AppendArgs(index, delta.partialJson, st);
    }
  }

  // ---- openai_completion -> anthropic ----

  /** The tool call a finished block amounts to, under the next number. */
  method CloseToolBlock(valid: string -> bool, index: int, st: StreamState) returns (call: ToolCall)
    requires index in st.toolMeta
    modifies st
    ensures st.View() == old(st.View()).(toolIndexSeq := old(st.toolIndexSeq) + 1)
    ensures call == ToolCall(old(st.toolIndexSeq), old(st.toolMeta)[index].id, old(st.toolMeta)[index].name,
                             EnsureJSONObject(valid, if index in old(st.toolArgs) then old(st.toolArgs)[index] else ""))
  {
    var meta := st.toolMeta[index];
    var args := "";
    if index in st.toolArgs {
      args := st.toolArgs[index];
    }
    call := ToolCall(st.toolIndexSeq, meta.id, meta.name, EnsureJSONObject(valid, args));
    st.toolIndexSeq := st.toolIndexSeq + 1;
  }

  function KeepModel(st: State, model: string): State {
    if model != "" then st.(model := model) else st
  }

  /** message_start, unless it went out already. */
  function StartMessage(st: State): (State, seq<AnthropicEvent>) {
    (st.(messageStarted := true), if st.messageStarted then [] else [MessageStart(st.model)])
  }

  /** A nonempty text piece, opening a text block when none is open. */
  function EmitText(st: State, delta: Option<OpenAIDelta>): (State, seq<AnthropicEvent>) {
    if delta.None? || delta.value.content == "" then (st, [])
    else
      (st.(openTextBlock := true),
       (if st.openTextBlock then [] else [BlockStart(st.nextBlockIndex, TextBlock)]) +
       [BlockDelta(st.nextBlockIndex, TextDelta(delta.value.content))])
  }

  /** Closing the open block, if any, and the message. */
  function FinishMessage(st: State, finish: Option<string>): (State, seq<AnthropicEvent>) {
    if finish.None? then (st, [])
    else
      var tail := [MessageDelta(MapFinishReason(finish.value)), MessageStop];
      if st.openTextBlock then
        (st.(openTextBlock := false, nextBlockIndex := st.nextBlockIndex + 1), [BlockStop(st.nextBlockIndex)] + tail)
      else (st, tail)
  }

  function OpenAIToAnthropic(st: State, e: OpenAIEvent): (State, seq<AnthropicEvent>) {
    var (model, delta, finish) := Fields(e);
    var (st1, start) := StartMessage(KeepModel(st, model));
    var (st2, text) := EmitText(st1, delta);
    var (st3, stop) := FinishMessage(st2, finish);
    (st3, start + text + stop)
  }

  method StreamOpenAIToAnthropic(e: OpenAIEvent, st: StreamState) returns (out: seq<AnthropicEvent>)
    modifies st
    ensures st.View() == OpenAIToAnthropic(old(st.View()), e).0
    ensures out == OpenAIToAnthropic(old(st.View()), e).1
  {
    var (model, delta, finish) := Fields(e);
    if model != "" {
      st.model := model;
    }
    ghost var st0 := st.View();
    out := [];
    if !st.messageStarted {
      out := out + [MessageStart(st.model)];
      st.messageStarted := true;
    }
    ghost var (st1, start) := StartMessage(st0);
    assert st.View() == st1 && out == start;
    if delta.Some? {
      var c := delta.value.content;
      if c != "" {
        if !st.openTextBlock {
          out := out + [BlockStart(st.nextBlockIndex, TextBlock)];
          st.openTextBlock := true;
        }
        out := out + [BlockDelta(st.nextBlockIndex, TextDelta(c))];
      }
    }
    ghost var (st2, text) := EmitText(st1, delta);
    assert st.View() == st2 && out == start + text;
    var stop := CloseMessage(finish, st);
    out := out + stop;
  }

  method CloseMessage(finish: Option<string>, st: StreamState) returns (out: seq<AnthropicEvent>)
    modifies st
    ensures st.View() == FinishMessage(old(st.View()), finish).0
    ensures out == FinishMessage(old(st.View()), finish).1
  {
    out := [];
    if finish.Some? {
      if st.openTextBlock {
        out := out + [BlockStop(st.nextBlockIndex)];
        st.openTextBlock := false;
        st.nextBlockIndex := st.nextBlockIndex + 1;
      }
      out := out + [MessageDelta(MapFinishReason(finish.value))];
      out := out + [MessageStop];
    }
  }

  // ---- anthropic -> codex ----

  function AnthropicToCodex(st: State, e: AnthropicEvent): (State, seq<CodexEvent>) {
    match e
    case MessageStart(model) => (st.(model := model), [Created(model)])
    case BlockDelta(_, TextDelta(text)) => (st, [OutputTextDelta(text)])
    case MessageDelta(_) => (st, [Completed(st.model)])
    case _ => (st, [])
  }

  method StreamAnthropicToCodex(e: AnthropicEvent, st: StreamState) returns (out: seq<CodexEvent>)
    modifies st
    ensures st.View() == AnthropicToCodex(old(st.View()), e).0
    ensures out == AnthropicToCodex(old(st.View()), e).1
  {
    out := [];
    match e {
      case MessageStart(model) =>
        st.model := model;
        out := out + [Created(st.model)];
      case BlockDelta(_, delta) =>
        if delta.TextDelta? {
          out := out + [OutputTextDelta(delta.text)];
        }
      case MessageDelta(_) =>
        out := out + [Completed(st.model)];
      case _ =>
    }
  }

  // ---- codex -> anthropic ----

  function CodexToAnthropic(st: State, e: CodexEvent): (State, seq<AnthropicEvent>) {
    match e
    case Created(model) => (st.(model := model, messageStarted := true), [MessageStart(model)])
    case InProgress(model) => (st.(model := model, messageStarted := true), [MessageStart(model)])
    case OutputTextDelta(text) =>
      (st.(openTextBlock := true),
       (if st.openTextBlock then [] else [BlockStart(st.nextBlockIndex, TextBlock)]) +
       [BlockDelta(st.nextBlockIndex, TextDelta(text))])
    case Completed(_) =>
      (st.(openTextBlock := false),
       (if st.openTextBlock then [BlockStop(st.nextBlockIndex)] else []) + [MessageDelta("end_turn"), MessageStop])
    case OtherItem => (st, [])
  }

  method StreamCodexToAnthropic(e: CodexEvent, st: StreamState) returns (out: seq<AnthropicEvent>)
    modifies st
    ensures st.View() == CodexToAnthropic(old(st.View()), e).0
    ensures out == CodexToAnthropic(old(st.View()), e).1
  {
    out := [];
    match e {
      case Created(model) =>
        st.model := model;
        out := out + [MessageStart(st.model)];
        st.messageStarted := true;
      case InProgress(model) =>
        st.model := model;
        out := out + [MessageStart(st.model)];
        st.messageStarted := true;
      case OutputTextDelta(text) =>
        if !st.openTextBlock {
          out := out + [BlockStart(st.nextBlockIndex, TextBlock)];
          st.openTextBlock := true;
        }
        out := out + [BlockDelta(st.nextBlockIndex, TextDelta(text))];
      case Completed(_) =>
        if st.openTextBlock {
          out := out + [BlockStop(st.nextBlockIndex)];
          st.openTextBlock := false;
        }
        out := out + [MessageDelta("end_turn")];
        out := out + [MessageStop];
      case OtherItem =>
    }
  }

  // ---- openai_completion -> codex ----

  function OpenAIToCodex(st: State, e: OpenAIEvent): (State, seq<CodexEvent>) {
    var (model, delta, finish) := Fields(e);
    var st1 := KeepModel(st, model);
    var start := if st1.messageStarted then [] else [Created(st1.model)];
    var text := if delta.Some? && delta.value.content != "" then [OutputTextDelta(delta.value.content)] else [];
    var stop := if finish.Some? then [Completed(st1.model)] else [];
    (st1.(messageStarted := true), start + text + stop)
  }

  method StreamOpenAIToCodex(e: OpenAIEvent, st: StreamState) returns (out: seq<CodexEvent>)
    modifies st
    ensures st.View() == OpenAIToCodex(old(st.View()), e).0
    ensures out == OpenAIToCodex(old(st.View()), e).1
  {
    var (model, delta, finish) := Fields(e);
    if model != "" {
      st.model := model;
    }
    out := [];
    if !st.messageStarted {
      out := out + [Created(st.model)];
      st.messageStarted := true;
    }
    if delta.Some? {
      var c := delta.value.content;
      if c != "" {
        out := out + [OutputTextDelta(c)];
      }
    }
    if finish.Some? {
      out := out + [Completed(st.model)];
    }
  }

  // ---- codex -> openai_completion ----

  function CodexToOpenAI(st: State, e: CodexEvent): (State, seq<OpenAIEvent>) {
    match e
    case Created(model) => (st.(model := model), [RoleChunk(model)])
    case OutputTextDelta(text) => (st, [ContentChunk(st.model, text)])
    case Completed(_) => (st, [FinishChunk(st.model, "stop"), Done])
    case _ => (st, [])
  }

  method StreamCodexToOpenAI(e: CodexEvent, st: StreamState) returns (out: seq<OpenAIEvent>)
    modifies st
    ensures st.View() == CodexToOpenAI(old(st.View()), e).0
    ensures out == CodexToOpenAI(old(st.View()), e).1
  {
    out := [];
    match e {
      case Created(model) =>
        st.model := model;
        out := out + [RoleChunk(st.model)];
      case OutputTextDelta(text) =>
        out := out + [ContentChunk(st.model, text)];
      case Completed(_) =>
        out := out + [FinishChunk(st.model, "stop")];
        out := out + [Done];
      case _ =>
    }
  }

  // ---- whole streams ----

  /** A transform fed a whole stream, event by event. */
  function Run<I, O>(step: (State, I) -> (State, seq<O>), st: State, events: seq<I>): (State, seq<O>)
    decreases |events|
  {
    if events == [] then (st, [])
    else
      var (st1, out) := step(st, events[0]);
      var (st2, rest) := Run(step, st1, events[1..]);
      (st2, out + rest)
  }

  /** Feeding one more event at the end. */
  lemma {:induction false} RunSnoc<I, O>(step: (State, I) -> (State, seq<O>), st: State, events: seq<I>, e: I)
    ensures
      var (st1, out) := Run(step, st, events);
      && Run(step, st, events + [e]).0 == step(st1, e).0
      && Run(step, st, events + [e]).1 == out + step(st1, e).1
    decreases |events|
  {
    if events == [] {
      assert Run(step, step(st, e).0, []) == (step(st, e).0, []);
      assert (events + [e])[1..] == [];
    } else {
      RunSnoc(step, step(st, events[0]).0, events[1..], e);
      assert (events + [e])[1..] == events[1..] + [e];
    }
  }

  /** A transform that keeps the text of every event keeps the text of every stream. */
  lemma {:induction false} RunKeepsText<I, O>(
      step: (State, I) -> (State, seq<O>), textIn: I -> string, textOut: O -> string, st: State, events: seq<I>)
    requires forall s, e :: Gather(textOut, step(s, e).1) == textIn(e)
    ensures Gather(textOut, Run(step, st, events).1) == Gather(textIn, events)
    decreases |events|
  {
    if events != [] {
      var (st1, out) := step(st, events[0]);
      RunKeepsText(step, textIn, textOut, st1, events[1..]);
      GatherAppend(textOut, out, Run(step, st1, events[1..]).1);
    }
  }

  /** A stream in one of the three protocols. */
  datatype Stream =
    | Anthropic(a: seq<AnthropicEvent>)
    | OpenAI(o: seq<OpenAIEvent>)
    | Codex(c: seq<CodexEvent>)

  datatype Protocol = AnthropicProtocol | OpenAIProtocol | CodexProtocol

  function Text(s: Stream): string {
    match s
    case Anthropic(a) => Gather(AnthropicText, a)
    case OpenAI(o) => Gather(OpenAIText, o)
    case Codex(c) => Gather(CodexText, c)
  }

  /** The registered stream transform towards `to`, run from a fresh state; the identity on its own protocol. */
  function Translate(valid: string -> bool, to: Protocol, s: Stream): Stream {
    match (s, to)
    case (Anthropic(a), OpenAIProtocol) =>
      OpenAI(Run((st, e) => AnthropicToOpenAI(valid, st, e), INITIAL, a).1)
    case (Anthropic(a), CodexProtocol) => Codex(Run(AnthropicToCodex, INITIAL, a).1)
    case (OpenAI(o), AnthropicProtocol) => Anthropic(Run(OpenAIToAnthropic, INITIAL, o).1)
    case (OpenAI(o), CodexProtocol) => Codex(Run(OpenAIToCodex, INITIAL, o).1)
    case (Codex(c), AnthropicProtocol) => Anthropic(Run(CodexToAnthropic, INITIAL, c).1)
    case (Codex(c), OpenAIProtocol) => OpenAI(Run(CodexToOpenAI, INITIAL, c).1)
    case _ => s
  }

  function TranslateAlong(valid: string -> bool, route: seq<Protocol>, s: Stream): Stream {
    if route == [] then s else TranslateAlong(valid, route[1..], Translate(valid, route[0], s))
  }

  lemma OpenAIToAnthropicKeepsText(st: State, e: OpenAIEvent)
    ensures Gather(AnthropicText, OpenAIToAnthropic(st, e).1) == OpenAIText(e)
  {
    var (model, delta, finish) := Fields(e);
    var (st1, start) := StartMessage(KeepModel(st, model));
    var (st2, text) := EmitText(st1, delta);
    var (st3, stop) := FinishMessage(st2, finish);
    GatherAppend(AnthropicText, start, text);
    GatherAppend(AnthropicText, start + text, stop);
    assert Gather(AnthropicText, start) == "";
    assert Gather(AnthropicText, text) == OpenAIText(e) by {
      if text != [] && !st1.openTextBlock {
        GatherAppend(AnthropicText, [text[0]], [text[1]]);
      }
    }
    FinishIsSilent(st2, finish);
  }

  lemma EndIsSilent(reason: string)
    ensures Gather(AnthropicText, [MessageDelta(reason), MessageStop]) == ""
  {
    assert [MessageDelta(reason), MessageStop][1..] == [MessageStop];
    assert Gather(AnthropicText, [MessageStop]) == "";
  }

  lemma FinishIsSilent(st: State, finish: Option<string>)
    ensures Gather(AnthropicText, FinishMessage(st, finish).1) == ""
  {
    if finish.Some? {
      var tail := [MessageDelta(MapFinishReason(finish.value)), MessageStop];
      EndIsSilent(MapFinishReason(finish.value));
      GatherAppend(AnthropicText, [BlockStop(st.nextBlockIndex)], tail);
    }
  }

  lemma OpenAIToCodexKeepsText(st: State, e: OpenAIEvent)
    ensures Gather(CodexText, OpenAIToCodex(st, e).1) == OpenAIText(e)
  {
    var (model, delta, finish) := Fields(e);
    var st1 := KeepModel(st, model);
    var start := if st1.messageStarted then [] else [Created(st1.model)];
    var text := if delta.Some? && delta.value.content != "" then [OutputTextDelta(delta.value.content)] else [];
    var stop := if finish.Some? then [Completed(st1.model)] else [];
    GatherAppend(CodexText, start, text);
    GatherAppend(CodexText, start + text, stop);
  }

  lemma CodexToAnthropicKeepsText(st: State, e: CodexEvent)
    ensures Gather(AnthropicText, CodexToAnthropic(st, e).1) == CodexText(e)
  {
    match e
    case OutputTextDelta(text) =>
      var open := if st.openTextBlock then [] else [BlockStart(st.nextBlockIndex, TextBlock)];
      assert Gather(AnthropicText, open) == "";
      assert Gather(AnthropicText, [BlockDelta(st.nextBlockIndex, TextDelta(text))]) == text;
      GatherAppend(AnthropicText, open, [BlockDelta(st.nextBlockIndex, TextDelta(text))]);
    case Completed(_) =>
      var tail := [MessageDelta("end_turn"), MessageStop];
      EndIsSilent("end_turn");
      var close := if st.openTextBlock then [BlockStop(st.nextBlockIndex)] else [];
      assert Gather(AnthropicText, close) == "";
      GatherAppend(AnthropicText, close, tail);
    case _ =>
  }

  lemma CodexToOpenAIKeepsText(st: State, e: CodexEvent)
    ensures Gather(OpenAIText, CodexToOpenAI(st, e).1) == CodexText(e)
  {
    if e.Completed? {
      var out := CodexToOpenAI(st, e).1;
      assert out[1..] == [Done];
      assert Gather(OpenAIText, [Done]) == "";
    }
  }

  /** Every transform keeps the text of every stream, well formed or not. */
  lemma TranslateKeepsText(valid: string -> bool, to: Protocol, s: Stream)
    ensures Text(Translate(valid, to, s)) == Text(s)
  {
    match (s, to)
    case (Anthropic(a), OpenAIProtocol) =>
      RunKeepsText((st, e) => AnthropicToOpenAI(valid, st, e), AnthropicText, OpenAIText, INITIAL, a);
    case (Anthropic(a), CodexProtocol) =>
      RunKeepsText(AnthropicToCodex, AnthropicText, CodexText, INITIAL, a);
    case (OpenAI(o), AnthropicProtocol) =>
      forall st, e { OpenAIToAnthropicKeepsText(st, e); }
      RunKeepsText(OpenAIToAnthropic, OpenAIText, AnthropicText, INITIAL, o);
    case (OpenAI(o), CodexProtocol) =>
      forall st, e { OpenAIToCodexKeepsText(st, e); }
      RunKeepsText(OpenAIToCodex, OpenAIText, CodexText, INITIAL, o);
    case (Codex(c), AnthropicProtocol) =>
      forall st, e { CodexToAnthropicKeepsText(st, e); }
      RunKeepsText(CodexToAnthropic, CodexText, AnthropicText, INITIAL, c);
    case (Codex(c), OpenAIProtocol) =>
      forall st, e { CodexToOpenAIKeepsText(st, e); }
      RunKeepsText(CodexToOpenAI, CodexText, OpenAIText, INITIAL, c);
    case _ =>
  }

  /** So any chain of translations agrees on text with any other, and every cycle returns the original text. */
  lemma {:induction false} EveryRouteKeepsText(valid: string -> bool, route: seq<Protocol>, s: Stream)
    ensures Text(TranslateAlong(valid, route, s)) == Text(s)
  {
    if route != [] {
      TranslateKeepsText(valid, route[0], s);
      EveryRouteKeepsText(valid, route[1..], Translate(valid, route[0], s));
    }
  }
}
