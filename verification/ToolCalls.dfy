/** Reassembly of interleaved tool blocks by streamAnthropicToOpenAI (internal/translate/stream.go:49-95). */
module ToolCalls {
  import opened Lists
  import opened Wrappers
  import opened Strings
  import opened Wire
  import opened Streams

  /** The tool calls an OpenAI stream delivers, in order. */
  function Calls(out: seq<OpenAIEvent>): seq<ToolCall> {
    if out == [] then []
    else CallsOf(out[0]) + Calls(out[1..])
  }

  function CallsOf(e: OpenAIEvent): seq<ToolCall> {
    match e
    case Chunk(_, Some(delta), _) => delta.toolCalls
    case _ => []
  }

  lemma {:induction false} CallsAppend(a: seq<OpenAIEvent>, b: seq<OpenAIEvent>)
    ensures Calls(a + b) == Calls(a) + Calls(b)
  {
    if a == [] {
      assert a + b == b;
    } else {
      CallsAppend(a[1..], b);
      assert (a + b)[0] == a[0] && (a + b)[1..] == a[1..] + b;
      Regroup(CallsOf(a[0]), Calls(a[1..]), Calls(b));
    }
  }

  // ---- what the upstream stream says about one block index ----

  function Front<T>(s: seq<T>): seq<T>
    requires s != []
  {
    s[..|s| - 1]
  }

  function Last<T>(s: seq<T>): T
    requires s != []
  {
    s[|s| - 1]
  }

  predicate StartsTool(e: AnthropicEvent, index: int) {
    e.BlockStart? && e.index == index && e.block.ToolUseBlock?
  }

  predicate CarriesPiece(e: AnthropicEvent, index: int) {
    e.BlockDelta? && e.index == index && e.delta.InputJsonDelta?
  }

  predicate StopsBlock(e: AnthropicEvent, index: int) {
    e.BlockStop? && e.index == index
  }

  /** The id and name of the latest tool_use block started at `index`. */
  function MetaOf(events: seq<AnthropicEvent>, index: int): Option<ToolMeta> {
    if events == [] then None
    else if StartsTool(Last(events), index) then Some(ToolMeta(Last(events).block.id, Last(events).block.name))
    else MetaOf(Front(events), index)
  }

  /** The partial_json pieces of `index`, joined in order. */
  function PiecesOf(events: seq<AnthropicEvent>, index: int): string {
    if events == [] then ""
    else PiecesOf(Front(events), index) + if CarriesPiece(Last(events), index) then Last(events).delta.partialJson else ""
  }

  /** The calls owed: one for each stop of an index that has been a tool block, with the pieces so far. */
  function Owed(valid: string -> bool, events: seq<AnthropicEvent>): (calls: seq<ToolCall>)
    ensures forall j :: 0 <= j < |calls| ==> calls[j].index == j
  {
    if events == [] then []
    else
      var before := Owed(valid, Front(events));
      var e := Last(events);
      if e.BlockStop? && MetaOf(Front(events), e.index).Some? then
        var meta := MetaOf(Front(events), e.index).value;
        before + [ToolCall(|before|, meta.id, meta.name, EnsureJSONObject(valid, PiecesOf(Front(events), e.index)))]
      else before
  }

  function MetaAt(st: State, index: int): Option<ToolMeta> {
    if index in st.toolMeta then Some(st.toolMeta[index]) else None
  }

  function ArgsAt(st: State, index: int): string {
    if index in st.toolArgs then st.toolArgs[index] else ""
  }

  ghost predicate Tracks(st: State, events: seq<AnthropicEvent>, calls: seq<ToolCall>) {
    && (forall i :: MetaAt(st, i) == MetaOf(events, i))
    && (forall i :: ArgsAt(st, i) == PiecesOf(events, i))
    && st.toolIndexSeq == |calls|
  }

  lemma Snoc(front: seq<AnthropicEvent>, e: AnthropicEvent, index: int)
    ensures PiecesOf(front + [e], index) ==
            PiecesOf(front, index) + if CarriesPiece(e, index) then e.delta.partialJson else ""
    ensures MetaOf(front + [e], index) ==
            if StartsTool(e, index) then Some(ToolMeta(e.block.id, e.block.name)) else MetaOf(front, index)
  {
    assert Front(front + [e]) == front && Last(front + [e]) == e;
  }

  lemma StateFollows(valid: string -> bool, st: State, e: AnthropicEvent, index: int)
    ensures ArgsAt(AnthropicToOpenAI(valid, st, e).0, index) ==
            ArgsAt(st, index) + if CarriesPiece(e, index) then e.delta.partialJson else ""
    ensures MetaAt(AnthropicToOpenAI(valid, st, e).0, index) ==
            if StartsTool(e, index) then Some(ToolMeta(e.block.id, e.block.name)) else MetaAt(st, index)
  {
  }

  /** The call an event is answered with. */
  function CallDue(valid: string -> bool, st: State, e: AnthropicEvent): seq<ToolCall> {
    if e.BlockStop? && MetaAt(st, e.index).Some? then
      var meta := MetaAt(st, e.index).value;
      [ToolCall(st.toolIndexSeq, meta.id, meta.name, EnsureJSONObject(valid, ArgsAt(st, e.index)))]
    else []
  }

  lemma EventAnswered(valid: string -> bool, st: State, e: AnthropicEvent)
    ensures Calls(AnthropicToOpenAI(valid, st, e).1) == CallDue(valid, st, e)
    ensures AnthropicToOpenAI(valid, st, e).0.toolIndexSeq == st.toolIndexSeq + |CallDue(valid, st, e)|
  {
    var out := AnthropicToOpenAI(valid, st, e).1;
    if out != [] {
      assert out[1..] == [];
      assert Calls(out) == CallsOf(out[0]) + Calls([]);
    }
  }

  lemma EventPaysWhatIsOwed(valid: string -> bool, st: State, front: seq<AnthropicEvent>, e: AnthropicEvent)
    requires Tracks(st, front, Owed(valid, front))
    ensures Owed(valid, front + [e]) == Owed(valid, front) + Calls(AnthropicToOpenAI(valid, st, e).1)
    ensures AnthropicToOpenAI(valid, st, e).0.toolIndexSeq == |Owed(valid, front + [e])|
  {
    EventAnswered(valid, st, e);
    assert Front(front + [e]) == front && Last(front + [e]) == e;
    if e.BlockStop? {
      assert MetaAt(st, e.index) == MetaOf(front, e.index) && ArgsAt(st, e.index) == PiecesOf(front, e.index);
    }
  }

  lemma EventKeepsTrack(valid: string -> bool, st: State, front: seq<AnthropicEvent>, e: AnthropicEvent)
    requires Tracks(st, front, Owed(valid, front))
    ensures Tracks(AnthropicToOpenAI(valid, st, e).0, front + [e], Owed(valid, front + [e]))
  {
    var st1 := AnthropicToOpenAI(valid, st, e).0;
    forall i ensures MetaAt(st1, i) == MetaOf(front + [e], i) && ArgsAt(st1, i) == PiecesOf(front + [e], i) {
      Snoc(front, e, i);
      StateFollows(valid, st, e, i);
    }
    EventPaysWhatIsOwed(valid, st, front, e);
  }

  /** A whole Anthropic stream, translated. */
  function ToOpenAI(valid: string -> bool, events: seq<AnthropicEvent>): (State, seq<OpenAIEvent>) {
    Run((st, e) => AnthropicToOpenAI(valid, st, e), INITIAL, events)
  }

  lemma OneMoreEvent(valid: string -> bool, front: seq<AnthropicEvent>, e: AnthropicEvent)
    ensures
      var (st, out) := ToOpenAI(valid, front);
      var (after, more) := AnthropicToOpenAI(valid, st, e);
      ToOpenAI(valid, front + [e]).0 == after && ToOpenAI(valid, front + [e]).1 == out + more
  {
    RunSnoc((st, e) => AnthropicToOpenAI(valid, st, e), INITIAL, front, e);
  }

  /** For every event sequence: one call per stopped tool block, in stop order, numbered from 0, with the
      block's id and name and the pieces that arrived for its index. */
  lemma {:induction false} EmitsWhatIsOwed(valid: string -> bool, events: seq<AnthropicEvent>)
    ensures Calls(ToOpenAI(valid, events).1) == Owed(valid, events)
    ensures Tracks(ToOpenAI(valid, events).0, events, Owed(valid, events))
  {
    if events != [] {
      var (front, e) := (Front(events), Last(events));
      EmitsWhatIsOwed(valid, front);
      assert front + [e] == events;
      OneMoreEvent(valid, front, e);
      var (st, out) := ToOpenAI(valid, front);
      EventPays(valid, st, out, front, e);
    }
  }

  lemma EventPays(
      valid: string -> bool, st: State, out: seq<OpenAIEvent>, front: seq<AnthropicEvent>, e: AnthropicEvent)
    requires Calls(out) == Owed(valid, front) && Tracks(st, front, Owed(valid, front))
    ensures
      var (after, more) := AnthropicToOpenAI(valid, st, e);
      Calls(out + more) == Owed(valid, front + [e]) && Tracks(after, front + [e], Owed(valid, front + [e]))
  {
    EventKeepsTrack(valid, st, front, e);
    EventPaysWhatIsOwed(valid, st, front, e);
    CallsAppend(out, AnthropicToOpenAI(valid, st, e).1);
  }

  // ---- upstreams that use every index for one block ----

  /** Each index starts once and stops once at most, and is silent after its stop. */
  ghost predicate OneBlockPerIndex(events: seq<AnthropicEvent>) {
    && (forall i, k, index :: 0 <= i < k < |events| && StopsBlock(events[i], index) ==>
          !StopsBlock(events[k], index) && !StartsTool(events[k], index) && !CarriesPiece(events[k], index))
    && (forall i, k, index :: 0 <= i < k < |events| && StartsTool(events[i], index) ==> !StartsTool(events[k], index))
  }

  /** The indices of the stopped tool blocks, in stop order. */
  function StoppedTools(events: seq<AnthropicEvent>): seq<int> {
    if events == [] then []
    else
      var e := Last(events);
      StoppedTools(Front(events)) +
      if e.BlockStop? && MetaOf(Front(events), e.index).Some? then [e.index] else []
  }

  /** A stopped tool block: its start, then its stop. */
  ghost predicate StartedAndStopped(events: seq<AnthropicEvent>, index: int) {
    exists i, k :: 0 <= i < k < |events| && StartsTool(events[i], index) && StopsBlock(events[k], index)
  }

  lemma {:induction false} StoppedToolsAreStops(events: seq<AnthropicEvent>, index: int)
    ensures index in StoppedTools(events) <==> StartedAndStopped(events, index)
  {
    if events != [] {
      var front, e := Front(events), Last(events);
      assert events == front + [e];
      StoppedToolsAreStops(front, index);
      MetaOfIsAStart(front, index);
      if StartedAndStopped(front, index) {
        var i, k :| 0 <= i < k < |front| && StartsTool(front[i], index) && StopsBlock(front[k], index);
        assert StartsTool(events[i], index) && StopsBlock(events[k], index);
      }
      if StopsBlock(e, index) && MetaOf(front, index).Some? {
        var i :| 0 <= i < |front| && StartsTool(front[i], index);
        assert StartsTool(events[i], index) && StopsBlock(events[|front|], index);
      }
      if StartedAndStopped(events, index) {
        var i, k :| 0 <= i < k < |events| && StartsTool(events[i], index) && StopsBlock(events[k], index);
        assert StartsTool(front[i], index);
        if k < |front| {
          assert StopsBlock(front[k], index);
        }
      }
    }
  }

  lemma {:induction false} MetaOfIsAStart(events: seq<AnthropicEvent>, index: int)
    ensures MetaOf(events, index).Some? <==> exists i :: 0 <= i < |events| && StartsTool(events[i], index)
  {
    if events != [] {
      MetaOfIsAStart(Front(events), index);
      if i :| 0 <= i < |Front(events)| && StartsTool(Front(events)[i], index) {
        assert StartsTool(events[i], index);
      }
      if i :| 0 <= i < |events| && StartsTool(events[i], index) {
        if i < |events| - 1 {
          assert StartsTool(Front(events)[i], index);
        }
      }
    }
  }

  /** After its stop, an index neither changes nor stops again. */
  lemma StoppedIsFinal(front: seq<AnthropicEvent>, e: AnthropicEvent, index: int)
    requires OneBlockPerIndex(front + [e]) && index in StoppedTools(front)
    ensures MetaOf(front + [e], index) == MetaOf(front, index)
    ensures PiecesOf(front + [e], index) == PiecesOf(front, index)
    ensures !StopsBlock(e, index)
  {
    StoppedToolsAreStops(front, index);
    var events := front + [e];
    var i, k :| 0 <= i < k < |front| && StartsTool(front[i], index) && StopsBlock(front[k], index);
    assert StopsBlock(events[k], index) && events[|front|] == e;
    Snoc(front, e, index);
  }

  lemma OneBlockPerIndexFront(front: seq<AnthropicEvent>, e: AnthropicEvent)
    requires OneBlockPerIndex(front + [e])
    ensures OneBlockPerIndex(front)
  {
    var events := front + [e];
    assert forall k :: 0 <= k < |front| ==> events[k] == front[k];
  }

  /** The call a stopped block is worth. */
  function CallFor(valid: string -> bool, events: seq<AnthropicEvent>, index: int, number: int): ToolCall
    requires MetaOf(events, index).Some?
  {
    var meta := MetaOf(events, index).value;
    ToolCall(number, meta.id, meta.name, EnsureJSONObject(valid, PiecesOf(events, index)))
  }

  /** No block is stopped, hence called, twice. */
  lemma {:induction false} StoppedOnce(events: seq<AnthropicEvent>)
    requires OneBlockPerIndex(events)
    ensures forall i, j :: 0 <= i < j < |StoppedTools(events)| ==> StoppedTools(events)[i] != StoppedTools(events)[j]
  {
    if events != [] {
      var front, e := Front(events), Last(events);
      assert events == front + [e];
      OneBlockPerIndexFront(front, e);
      StoppedOnce(front);
      forall j | 0 <= j < |StoppedTools(front)| ensures !StopsBlock(e, StoppedTools(front)[j]) {
        StoppedIsFinal(front, e, StoppedTools(front)[j]);
      }
    }
  }

  /** On such upstreams each stopped tool block yields exactly one call, carrying all of its own pieces and none
      of another block's, however the blocks were interleaved. */
  lemma {:induction false} OneCallPerBlock(valid: string -> bool, events: seq<AnthropicEvent>)
    requires OneBlockPerIndex(events)
    ensures |Owed(valid, events)| == |StoppedTools(events)|
    ensures forall j :: 0 <= j < |StoppedTools(events)| ==>
              var index := StoppedTools(events)[j];
              MetaOf(events, index).Some? && Owed(valid, events)[j] == CallFor(valid, events, index, j)
  {
    if events != [] {
      var front, e := Front(events), Last(events);
      assert events == front + [e];
      OneBlockPerIndexFront(front, e);
      OneCallPerBlock(valid, front);
      forall j | 0 <= j < |StoppedTools(front)|
        ensures MetaOf(events, StoppedTools(front)[j]).Some?
        ensures Owed(valid, front)[j] == CallFor(valid, events, StoppedTools(front)[j], j)
      {
        StoppedIsFinal(front, e, StoppedTools(front)[j]);
      }
      LastCall(valid, front, e);
    }
  }

  /** What the last event adds: nothing, or one stop and its call. */
  lemma LastCall(valid: string -> bool, front: seq<AnthropicEvent>, e: AnthropicEvent)
    ensures
      if e.BlockStop? && MetaOf(front, e.index).Some? then
        && StoppedTools(front + [e]) == StoppedTools(front) + [e.index]
        && MetaOf(front + [e], e.index).Some?
        && Owed(valid, front + [e]) ==
           Owed(valid, front) + [CallFor(valid, front + [e], e.index, |Owed(valid, front)|)]
      else
        && StoppedTools(front + [e]) == StoppedTools(front)
        && Owed(valid, front + [e]) == Owed(valid, front)
  {
    assert Front(front + [e]) == front && Last(front + [e]) == e;
    if e.BlockStop? {
      Snoc(front, e, e.index);
      assert PiecesOf(front, e.index) + "" == PiecesOf(front, e.index);
    }
  }

  /** Both together: what a client of a well-behaved upstream receives. */
  lemma ToolBlocksReassembled(valid: string -> bool, events: seq<AnthropicEvent>)
    requires OneBlockPerIndex(events)
    ensures
      var calls := Calls(ToOpenAI(valid, events).1);
      var stops := StoppedTools(events);
      && |calls| == |stops|
      && (forall i, j :: 0 <= i < j < |stops| ==> stops[i] != stops[j])
      && (forall index :: index in stops <==> StartedAndStopped(events, index))
      && (forall j :: 0 <= j < |stops| ==>
            MetaOf(events, stops[j]).Some? && calls[j] == CallFor(valid, events, stops[j], j))
  {
    EmitsWhatIsOwed(valid, events);
    OneCallPerBlock(valid, events);
    StoppedOnce(events);
    forall index ensures index in StoppedTools(events) <==> StartedAndStopped(events, index) {
      StoppedToolsAreStops(events, index);
    }
  }
}
