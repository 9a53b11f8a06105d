/** Block structure of the Anthropic streams that internal/translate/stream.go synthesizes. */
module Brackets {
  import opened Wrappers
  import opened Wire
  import opened Streams

  function Starts(out: seq<AnthropicEvent>): nat {
    if out == [] then 0 else Starts(out[..|out| - 1]) + if out[|out| - 1].BlockStart? then 1 else 0
  }

  function Stops(out: seq<AnthropicEvent>): nat {
    if out == [] then 0 else Stops(out[..|out| - 1]) + if out[|out| - 1].BlockStop? then 1 else 0
  }

  /** `e` may follow `before`: message_start comes first and only first; a block starts when none is open and
      takes the next index; deltas and stops carry the open block's index; the message ends between blocks. */
  predicate Fits(before: seq<AnthropicEvent>, e: AnthropicEvent) {
    match e
    case MessageStart(_) => before == []
    case BlockStart(index, _) => before != [] && Starts(before) == Stops(before) == index
    case BlockDelta(index, _) => before != [] && Starts(before) == index + 1 && Stops(before) == index
    case BlockStop(index) => before != [] && Starts(before) == index + 1 && Stops(before) == index
    case MessageDelta(_) => before != [] && Starts(before) == Stops(before)
    case MessageStop => before != [] && Starts(before) == Stops(before)
    case OtherEvent => true
  }

  ghost predicate WellBracketed(out: seq<AnthropicEvent>) {
    forall k {:trigger out[k]} :: 0 <= k < |out| ==> Fits(out[..k], out[k])
  }

  /** One more event: it must fit after the rest, which must be well bracketed. */
  lemma WellBracketedSnoc(out: seq<AnthropicEvent>, e: AnthropicEvent)
    ensures WellBracketed(out + [e]) <==> WellBracketed(out) && Fits(out, e)
    ensures Starts(out + [e]) == Starts(out) + if e.BlockStart? then 1 else 0
    ensures Stops(out + [e]) == Stops(out) + if e.BlockStop? then 1 else 0
  {
    var longer := out + [e];
    assert longer[..|out|] == out && longer[|out|] == e;
    forall k | 0 <= k < |out| ensures longer[..k] == out[..k] && longer[k] == out[k] {
    }
    if WellBracketed(longer) {
      forall k | 0 <= k < |out| ensures Fits(out[..k], out[k]) {
        assert Fits(longer[..k], longer[k]);
      }
    }
  }

  /** The two closing events fit exactly between blocks of a stream that has begun. */
  lemma EndFits(out: seq<AnthropicEvent>, reason: string)
    ensures WellBracketed(out + [MessageDelta(reason), MessageStop]) <==>
            WellBracketed(out) && out != [] && Starts(out) == Stops(out)
    ensures Starts(out + [MessageDelta(reason), MessageStop]) == Starts(out)
    ensures Stops(out + [MessageDelta(reason), MessageStop]) == Stops(out)
  {
    WellBracketedSnoc(out, MessageDelta(reason));
    WellBracketedSnoc(out + [MessageDelta(reason)], MessageStop);
    assert out + [MessageDelta(reason)] + [MessageStop] == out + [MessageDelta(reason), MessageStop];
  }

  // ---- openai_completion -> anthropic ----

  /** How the stream state mirrors what has been emitted. */
  ghost predicate Mirrors(st: State, out: seq<AnthropicEvent>) {
    && WellBracketed(out)
    && st.messageStarted == (out != [])
    && Stops(out) == st.nextBlockIndex
    && Starts(out) == st.nextBlockIndex + if st.openTextBlock then 1 else 0
  }

  lemma StartKeepsMirror(st: State, out: seq<AnthropicEvent>)
    requires Mirrors(st, out)
    ensures Mirrors(StartMessage(st).0, out + StartMessage(st).1)
    ensures out + StartMessage(st).1 != []
  {
    if st.messageStarted {
      assert out + [] == out;
    } else {
      WellBracketedSnoc(out, MessageStart(st.model));
    }
  }

  lemma TextKeepsMirror(st: State, delta: Option<OpenAIDelta>, out: seq<AnthropicEvent>)
    requires Mirrors(st, out) && out != []
    ensures Mirrors(EmitText(st, delta).0, out + EmitText(st, delta).1)
  {
    if delta.None? || delta.value.content == "" {
      assert out + [] == out;
    } else {
      var start := BlockStart(st.nextBlockIndex, TextBlock);
      var piece := BlockDelta(st.nextBlockIndex, TextDelta(delta.value.content));
      if !st.openTextBlock {
        WellBracketedSnoc(out, start);
        WellBracketedSnoc(out + [start], piece);
        assert out + ([start] + [piece]) == out + [start] + [piece];
      } else {
        WellBracketedSnoc(out, piece);
        assert out + ([] + [piece]) == out + [piece];
      }
    }
  }

  lemma FinishKeepsMirror(st: State, finish: Option<string>, out: seq<AnthropicEvent>)
    requires Mirrors(st, out) && out != []
    ensures Mirrors(FinishMessage(st, finish).0, out + FinishMessage(st, finish).1)
  {
    if finish.None? {
      assert out + [] == out;
    } else {
      var stop := BlockStop(st.nextBlockIndex);
      var reason := MapFinishReason(finish.value);
      if st.openTextBlock {
        WellBracketedSnoc(out, stop);
        EndFits(out + [stop], reason);
        assert out + [stop] + [MessageDelta(reason), MessageStop] == out + FinishMessage(st, finish).1;
      } else {
        EndFits(out, reason);
      }
    }
  }

  lemma ChunkKeepsMirror(st: State, e: OpenAIEvent, out: seq<AnthropicEvent>)
    requires Mirrors(st, out)
    ensures Mirrors(OpenAIToAnthropic(st, e).0, out + OpenAIToAnthropic(st, e).1)
    ensures out + OpenAIToAnthropic(st, e).1 != []
  {
    var (model, delta, finish) := Fields(e);
    var (st1, start) := StartMessage(KeepModel(st, model));
    var (st2, text) := EmitText(st1, delta);
    var (st3, stop) := FinishMessage(st2, finish);
    StartKeepsMirror(KeepModel(st, model), out);
    TextKeepsMirror(st1, delta, out + start);
    FinishKeepsMirror(st2, finish, out + start + text);
    assert out + start + text + stop == out + (start + text + stop);
  }

  /** Well bracketed for every chunk sequence: repeated finishes, text after a finish, [DONE] anywhere. */
  lemma {:induction false} OpenAIToAnthropicIsWellBracketed(events: seq<OpenAIEvent>)
    ensures Mirrors(Run(OpenAIToAnthropic, INITIAL, events).0, Run(OpenAIToAnthropic, INITIAL, events).1)
    ensures WellBracketed(Run(OpenAIToAnthropic, INITIAL, events).1)
    ensures events != [] ==> Run(OpenAIToAnthropic, INITIAL, events).1 != []
  {
    if events != [] {
      var last := |events| - 1;
      OpenAIToAnthropicIsWellBracketed(events[..last]);
      RunSnoc(OpenAIToAnthropic, INITIAL, events[..last], events[last]);
      assert events[..last] + [events[last]] == events;
      var (st, out) := Run(OpenAIToAnthropic, INITIAL, events[..last]);
      ChunkKeepsMirror(st, events[last], out);
    }
  }

  // ---- codex -> anthropic ----

  predicate Opens(e: CodexEvent) {
    e.Created? || e.InProgress?
  }

  predicate Silent(events: seq<CodexEvent>) {
    forall e :: e in events ==> e.OtherItem?
  }

  /** Some text was followed by a completion. */
  predicate TextClosed(events: seq<CodexEvent>) {
    exists i, j :: 0 <= i < j < |events| && events[i].OutputTextDelta? && events[j].Completed?
  }

  predicate HasText(events: seq<CodexEvent>) {
    exists i :: 0 <= i < |events| && events[i].OutputTextDelta?
  }

  /** What a codex upstream must not do: announce the response twice, produce before announcing it,
      or resume text after completing it. */
  predicate Disciplined(before: seq<CodexEvent>, e: CodexEvent) {
    match e
    case Created(_) => Silent(before)
    case InProgress(_) => Silent(before)
    case OutputTextDelta(_) => !Silent(before) && !TextClosed(before)
    case Completed(_) => !Silent(before)
    case OtherItem => true
  }

  ghost predicate DisciplinedStream(events: seq<CodexEvent>) {
    forall k {:trigger events[k]} :: 0 <= k < |events| ==> Disciplined(events[..k], events[k])
  }

  ghost predicate MirrorsCodex(st: State, out: seq<AnthropicEvent>, events: seq<CodexEvent>) {
    && st.nextBlockIndex == 0
    && (out == [] <==> Silent(events))
    && Stops(out) == (if TextClosed(events) then 1 else 0)
    && st.openTextBlock == (HasText(events) && !TextClosed(events))
    && Starts(out) == Stops(out) + if st.openTextBlock then 1 else 0
  }

  lemma TextClosedSnoc(events: seq<CodexEvent>, e: CodexEvent)
    ensures Silent(events + [e]) <==> Silent(events) && e.OtherItem?
    ensures HasText(events + [e]) <==> HasText(events) || e.OutputTextDelta?
    ensures TextClosed(events + [e]) <==> TextClosed(events) || (HasText(events) && e.Completed?)
  {
    var longer := events + [e];
    assert longer[|events|] == e;
    assert forall x :: x in longer <==> x in events || x == e;
    if HasText(events) {
      var i :| 0 <= i < |events| && events[i].OutputTextDelta?;
      assert longer[i].OutputTextDelta?;
      if e.Completed? {
        assert longer[|events|].Completed?;
      }
    }
    if TextClosed(events) {
      var i, j :| 0 <= i < j < |events| && events[i].OutputTextDelta? && events[j].Completed?;
      assert longer[i].OutputTextDelta? && longer[j].Completed?;
    }
  }

  lemma DisciplinedSnoc(events: seq<CodexEvent>, e: CodexEvent)
    ensures DisciplinedStream(events + [e]) <==> DisciplinedStream(events) && Disciplined(events, e)
  {
    var longer := events + [e];
    assert longer[..|events|] == events && longer[|events|] == e;
    forall k | 0 <= k < |events| ensures longer[..k] == events[..k] && longer[k] == events[k] {
    }
    if DisciplinedStream(longer) {
      forall k | 0 <= k < |events| ensures Disciplined(events[..k], events[k]) {
        assert Disciplined(longer[..k], longer[k]);
      }
    }
  }

  lemma CompletionKeepsMirror(st: State, out: seq<AnthropicEvent>, events: seq<CodexEvent>, model: string)
    requires WellBracketed(out) && MirrorsCodex(st, out, events)
    ensures
      var (st1, more) := CodexToAnthropic(st, Completed(model));
      && (WellBracketed(out + more) <==> !Silent(events))
      && (!Silent(events) ==> MirrorsCodex(st1, out + more, events + [Completed(model)]))
  {
    TextClosedSnoc(events, Completed(model));
    var (st1, more) := CodexToAnthropic(st, Completed(model));
    var stop := BlockStop(0);
    if st.openTextBlock {
      WellBracketedSnoc(out, stop);
      EndFits(out + [stop], "end_turn");
      assert out + [stop] + [MessageDelta("end_turn"), MessageStop] == out + more;
    } else {
      EndFits(out, "end_turn");
      assert more == [MessageDelta("end_turn"), MessageStop];
    }
  }

  lemma AnnouncementKeepsMirror(st: State, out: seq<AnthropicEvent>, events: seq<CodexEvent>, e: CodexEvent)
    requires WellBracketed(out) && MirrorsCodex(st, out, events) && Opens(e)
    ensures
      var (st1, more) := CodexToAnthropic(st, e);
      && (WellBracketed(out + more) <==> Silent(events))
      && (Silent(events) ==> MirrorsCodex(st1, out + more, events + [e]))
  {
    TextClosedSnoc(events, e);
    WellBracketedSnoc(out, MessageStart(e.model));
    assert CodexToAnthropic(st, e).1 == [MessageStart(e.model)];
  }

  lemma TextKeepsCodexMirror(st: State, out: seq<AnthropicEvent>, events: seq<CodexEvent>, text: string)
    requires WellBracketed(out) && MirrorsCodex(st, out, events)
    ensures
      var (st1, more) := CodexToAnthropic(st, OutputTextDelta(text));
      && (WellBracketed(out + more) <==> !Silent(events) && !TextClosed(events))
      && (!Silent(events) && !TextClosed(events) ==> MirrorsCodex(st1, out + more, events + [OutputTextDelta(text)]))
  {
    TextClosedSnoc(events, OutputTextDelta(text));
    var more := CodexToAnthropic(st, OutputTextDelta(text)).1;
    var start := BlockStart(0, TextBlock);
    var piece := BlockDelta(0, TextDelta(text));
    if st.openTextBlock {
      WellBracketedSnoc(out, piece);
      assert more == [piece];
    } else {
      WellBracketedSnoc(out, start);
      WellBracketedSnoc(out + [start], piece);
      assert out + more == out + [start] + [piece];
    }
  }

  lemma CodexEventKeepsMirror(st: State, out: seq<AnthropicEvent>, events: seq<CodexEvent>, e: CodexEvent)
    requires WellBracketed(out) && MirrorsCodex(st, out, events)
    ensures
      var (st1, more) := CodexToAnthropic(st, e);
      && (WellBracketed(out + more) <==> Disciplined(events, e))
      && (Disciplined(events, e) ==> MirrorsCodex(st1, out + more, events + [e]))
  {
    match e
    case OutputTextDelta(text) => TextKeepsCodexMirror(st, out, events, text);
    case Completed(model) => CompletionKeepsMirror(st, out, events, model);
    case OtherItem =>
      TextClosedSnoc(events, e);
      assert out + CodexToAnthropic(st, e).1 == out;
    case _ => AnnouncementKeepsMirror(st, out, events, e);
  }

  /** The reverse direction keeps no such discipline of its own: its output is well bracketed exactly when
      the upstream announces the response once, before anything else, and never resumes completed text. */
  lemma {:induction false} CodexToAnthropicBrackets(events: seq<CodexEvent>)
    ensures WellBracketed(Run(CodexToAnthropic, INITIAL, events).1) <==> DisciplinedStream(events)
    ensures DisciplinedStream(events) ==>
              MirrorsCodex(Run(CodexToAnthropic, INITIAL, events).0, Run(CodexToAnthropic, INITIAL, events).1, events)
  {
    if events != [] {
      var last := |events| - 1;
      var (front, e) := (events[..last], events[last]);
      CodexToAnthropicBrackets(front);
      RunSnoc(CodexToAnthropic, INITIAL, front, e);
      assert front + [e] == events;
      DisciplinedSnoc(front, e);
      var (st, out) := Run(CodexToAnthropic, INITIAL, front);
      if DisciplinedStream(front) {
        CodexEventKeepsMirror(st, out, front, e);
      } else {
        BrokenStaysBroken(out, CodexToAnthropic(st, e).1);
      }
    }
  }

  lemma BrokenStaysBroken(out: seq<AnthropicEvent>, more: seq<AnthropicEvent>)
    requires !WellBracketed(out)
    ensures !WellBracketed(out + more)
  {
    var k :| 0 <= k < |out| && !Fits(out[..k], out[k]);
    assert (out + more)[..k] == out[..k] && (out + more)[k] == out[k];
  }

  /** The codex API announces every response as created and then in progress: two message_start events come out. */
  lemma TwoAnnouncements(model: string)
    ensures Run(CodexToAnthropic, INITIAL, [Created(model), InProgress(model)]).1 ==
            [MessageStart(model), MessageStart(model)]
    ensures !WellBracketed(Run(CodexToAnthropic, INITIAL, [Created(model), InProgress(model)]).1)
  {
    var events: seq<CodexEvent> := [Created(model)];
    RunSnoc(CodexToAnthropic, INITIAL, [], Created(model));
    RunSnoc(CodexToAnthropic, INITIAL, events, InProgress(model));
    assert [] + [Created(model)] == events && events + [InProgress(model)] == [Created(model), InProgress(model)];
    WellBracketedSnoc([MessageStart(model)], MessageStart(model));
    assert [MessageStart(model)] + [MessageStart(model)] == [MessageStart(model), MessageStart(model)];
  }
}
