/** The streaming events of the three protocols, as the fields internal/translate/stream.go looks up in
    them. A field that is absent reads as its zero value; finish_reason null and absent read the same. */
module Wire {
  import opened Wrappers

  datatype Block = TextBlock | ToolUseBlock(id: string, name: string) | OtherBlock

  datatype Delta = TextDelta(text: string) | InputJsonDelta(partialJson: string) | OtherDelta

  datatype AnthropicEvent =
    | MessageStart(model: string)
    | BlockStart(index: int, block: Block)
    | BlockDelta(index: int, delta: Delta)
    | BlockStop(index: int)
    | MessageDelta(stopReason: string)
    | MessageStop
    | OtherEvent  // ping, errors, unknown types, and the nil chunk

  datatype ToolCall = ToolCall(index: int, id: string, name: string, arguments: string)

  datatype OpenAIDelta = OpenAIDelta(role: string, content: string, toolCalls: seq<ToolCall>)

  datatype OpenAIEvent =
    | Chunk(model: string, delta: Option<OpenAIDelta>, finish: Option<string>)
    | Done  // "[DONE]", which reaches a transform as the nil chunk

  datatype CodexEvent =
    | Created(model: string)
    | InProgress(model: string)
    | OutputTextDelta(text: string)
    | Completed(model: string)
    | OtherItem

  /** The text an event carries. */
  function AnthropicText(e: AnthropicEvent): string {
    match e
    case BlockDelta(_, TextDelta(text)) => text
    case _ => ""
  }

  function OpenAIText(e: OpenAIEvent): string {
    match e
    case Chunk(_, Some(delta), _) => delta.content
    case _ => ""
  }

  function CodexText(e: CodexEvent): string {
    match e
    case OutputTextDelta(text) => text
    case _ => ""
  }

  /** The text of a whole stream. */
  function Gather<E>(text: E -> string, events: seq<E>): string {
    if events == [] then "" else text(events[0]) + Gather(text, events[1..])
  }

  lemma {:induction false} GatherAppend<E>(text: E -> string, a: seq<E>, b: seq<E>)
    ensures Gather(text, a + b) == Gather(text, a) + Gather(text, b)
  {
    if a == [] {
      assert a + b == b;
    } else {
      GatherAppend(text, a[1..], b);
      assert (a + b)[1..] == a[1..] + b;
    }
  }
}
