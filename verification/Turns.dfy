/** What a request says, read off the wire body itself in each of the three protocols, and what the parsers of
    internal/translate make of it. */
module Turns {
  import opened Wrappers
  import opened Strings
  import opened Lists
  import opened Norm
  import Anthropic
  import OpenAI
  import Codex

  datatype Piece = Words(text: string) | Thought(text: string) | Picture(mediaType: string, data: string)

  datatype Use = Use(id: string, name: string, input: string)

  datatype Outcome = Outcome(id: string, text: string, failed: bool)

  /** One party's turn: its texts and pictures, the tools it calls, and the results it brings, each in order. */
  datatype Turn = Turn(role: string, pieces: seq<Piece>, uses: seq<Use>, results: seq<Outcome>)

  // ---- Anthropic ----

  function AnthropicPiece(u: (), b: Anthropic.Block): seq<Piece> {
    match b
    case TextBlock(text) => [Words(text)]
    case ThinkingBlock(thinking) => [Thought(thinking)]
    case ImageBlock(mediaType, data) => [Picture(mediaType, data)]
    case _ => []
  }

  function AnthropicUse(u: (), b: Anthropic.Block): seq<Use> {
    match b
    case ToolUseBlock(id, name, input) => [Use(id, name, input)]
    case _ => []
  }

  /** The texts of a result's parts, joined. */
  function PartsText(parts: seq<Anthropic.TextPart>): string {
    if parts == [] then ""
    else (match parts[0].text case Some(t) => t case None => "") + PartsText(parts[1..])
  }

  function ResultText(c: Anthropic.ResultContent): string {
    match c
    case NoResult => ""
    case PlainResult(text) => text
    case ResultParts(parts) => PartsText(parts)
  }

  function AnthropicOutcome(u: (), b: Anthropic.Block): seq<Outcome> {
    match b
    case ToolResultBlock(id, content, isError) => [Outcome(id, ResultText(content), isError)]
    case _ => []
  }

  /** A string content is one block of text. */
  function BlocksOf(c: Anthropic.Content): seq<Anthropic.Block> {
    match c
    case Missing => []
    case Plain(text) => [Anthropic.TextBlock(text)]
    case Blocks(blocks) => blocks
  }

  function AnthropicPieces(c: Anthropic.Content): seq<Piece> {
    FlatMap(AnthropicPiece, (), BlocksOf(c))
  }

  function AnthropicTurn(u: (), m: Anthropic.Message): seq<Turn> {
    [Turn(m.role, AnthropicPieces(m.content), FlatMap(AnthropicUse, (), BlocksOf(m.content)),
          FlatMap(AnthropicOutcome, (), BlocksOf(m.content)))]
  }

  // ---- OpenAI ----

  function OpenAIPiece(u: (), p: OpenAI.Part): seq<Piece> {
    match p
    case TextPart(text) => [Words(text)]
    case ImagePart(url) => [Picture(DataURLMediaType(url), DataURLData(url))]
    case OtherPart => []
  }

  function OpenAIPieces(c: OpenAI.Content): seq<Piece> {
    match c
    case Plain(text) => [Words(text)]
    case Parts(parts) => FlatMap(OpenAIPiece, (), parts)
    case _ => []
  }

  function OpenAIUse(u: (), c: OpenAI.Call): seq<Use> {
    [Use(c.id, c.name, c.arguments)]
  }

  /** A tool message brings a result on the user's side; a system message is not a turn. */
  function OpenAITurn(json: OpenAI.Json, m: OpenAI.Message): seq<Turn> {
    if m.role == "system" then []
    else if m.role == "tool" then
      [Turn("user", [], [], [Outcome(m.toolCallId, OpenAI.ContentString(json, m.content), false)])]
    else [Turn(m.role, OpenAIPieces(m.content), FlatMap(OpenAIUse, (), m.toolCalls), [])]
  }

  function OpenAISystem(json: OpenAI.Json, m: OpenAI.Message): seq<Piece> {
    if m.role == "system" then OpenAIPieces(m.content) else []
  }

  // ---- Codex ----

  function CodexPiece(u: string, b: Codex.CodexBlock): seq<Piece> {
    match b
    case CodexText(_, text) => [Words(text)]
    case CodexImage(url) => [Picture(DataURLMediaType(url), DataURLData(url))]
    case OtherBlock => []
  }

  function CodexPieces(content: Option<seq<Codex.CodexBlock>>): seq<Piece> {
    match content
    case None => []
    case Some(blocks) => FlatMap(CodexPiece, "", blocks)
  }

  /** A call is the assistant's turn, its output the user's. */
  function CodexTurn(json: Syntax, item: Codex.CodexItem): seq<Turn> {
    match item
    case MessageItem(role, content) => [Turn(if role == "" then "user" else role, CodexPieces(content), [], [])]
    case FunctionCall(id, name, arguments) => [Turn("assistant", [], [Use(id, name, arguments)], [])]
    case FunctionCallOutput(id, output) => [Turn("user", [], [], [Outcome(id, output, false)])]
    case OtherItem => []
  }

  // ---- the normal form ----

  function PieceOf<E>(env: E, c: NormContent): seq<Piece> {
    match c
    case Text(text) => [Words(text)]
    case Thinking(text) => [Thought(text)]
    case Image(mediaType, data) => [Picture(mediaType, data)]
    case _ => []
  }

  function UseOf<E>(env: E, c: NormContent): seq<Use> {
    match c
    case ToolUse(id, name, input) => [Use(id, name, input)]
    case _ => []
  }

  function OutcomeOf<E>(env: E, c: NormContent): seq<Outcome> {
    match c
    case ToolResult(id, result, isError) => [Outcome(id, result, isError)]
    case _ => []
  }

  function NormPieces(cs: seq<NormContent>): seq<Piece> {
    FlatMap(PieceOf, (), cs)
  }

  function NormUses(cs: seq<NormContent>): seq<Use> {
    FlatMap(UseOf, (), cs)
  }

  function NormOutcomes(cs: seq<NormContent>): seq<Outcome> {
    FlatMap(OutcomeOf, (), cs)
  }

  function NormTurn(m: NormMessage): Turn {
    Turn(m.role, NormPieces(m.content), NormUses(m.content), NormOutcomes(m.content))
  }

  function TurnOf<E>(env: E, m: NormMessage): seq<Turn> {
    [NormTurn(m)]
  }

  // ---- the Anthropic parser ----

  lemma {:induction false} PartsRendered(parts: seq<Anthropic.TextPart>)
    ensures FlatMap(Anthropic.PartText, (), parts) == PartsText(parts)
  {
    if parts != [] {
      PartsRendered(parts[1..]);
    }
  }

  lemma BlockParses(b: Anthropic.Block)
    ensures NormPieces(Anthropic.ParseBlock((), b)) == AnthropicPiece((), b)
    ensures NormUses(Anthropic.ParseBlock((), b)) == AnthropicUse((), b)
    ensures NormOutcomes(Anthropic.ParseBlock((), b)) == AnthropicOutcome((), b)
  {
    var cs := Anthropic.ParseBlock((), b);
    if b.ToolResultBlock? && b.content.ResultParts? {
      PartsRendered(b.content.parts);
    }
    if cs != [] {
      assert cs == [cs[0]];
      FlatMapOne(PieceOf, (), cs[0]);
      FlatMapOne(UseOf, (), cs[0]);
      FlatMapOne(OutcomeOf, (), cs[0]);
    }
  }

  /** A string content parses as its one-block form does. */
  lemma PlainIsOneBlock(c: Anthropic.Content)
    ensures Anthropic.ParseContent(c) == Anthropic.ParseContent(Anthropic.Blocks(BlocksOf(c)))
  {
    if c.Plain? {
      FlatMapOne(Anthropic.ParseBlock, (), Anthropic.TextBlock(c.text));
    }
  }

  lemma ContentParses(c: Anthropic.Content)
    ensures NormPieces(Anthropic.ParseContent(c)) == AnthropicPieces(c)
    ensures NormUses(Anthropic.ParseContent(c)) == FlatMap(AnthropicUse, (), BlocksOf(c))
    ensures NormOutcomes(Anthropic.ParseContent(c)) == FlatMap(AnthropicOutcome, (), BlocksOf(c))
  {
    PlainIsOneBlock(c);
    forall b
      ensures FlatMap(PieceOf, (), Anthropic.ParseBlock((), b)) == AnthropicPiece((), b)
      ensures FlatMap(UseOf, (), Anthropic.ParseBlock((), b)) == AnthropicUse((), b)
      ensures FlatMap(OutcomeOf, (), Anthropic.ParseBlock((), b)) == AnthropicOutcome((), b)
    {
      BlockParses(b);
    }
    FlatMapFusion(Anthropic.ParseBlock, PieceOf, AnthropicPiece, (), BlocksOf(c));
    FlatMapFusion(Anthropic.ParseBlock, UseOf, AnthropicUse, (), BlocksOf(c));
    FlatMapFusion(Anthropic.ParseBlock, OutcomeOf, AnthropicOutcome, (), BlocksOf(c));
  }

  /** Parsing an Anthropic body keeps every turn of it, whatever shape its contents have, and its system prompt. */
  lemma AnthropicParses(body: Anthropic.AnthropicRequest)
    ensures
      var nr := Anthropic.Parsed(body);
      && FlatMap(TurnOf, (), nr.messages) == FlatMap(AnthropicTurn, (), body.messages)
      && NormPieces(nr.system) == AnthropicPieces(body.system)
  {
    ContentParses(body.system);
    forall m ensures FlatMap(TurnOf, (), Anthropic.ParseMessage((), m)) == AnthropicTurn((), m) {
      ContentParses(m.content);
      FlatMapOne(TurnOf, (), Anthropic.ParseMessage((), m)[0]);
    }
    FlatMapFusion(Anthropic.ParseMessage, TurnOf, AnthropicTurn, (), body.messages);
  }

  // ---- the OpenAI parser ----

  lemma OpenAIContentParses(c: OpenAI.Content)
    ensures NormPieces(OpenAI.ParseContent(c)) == OpenAIPieces(c)
    ensures NormUses(OpenAI.ParseContent(c)) == [] && NormOutcomes(OpenAI.ParseContent(c)) == []
  {
    match c
    case Plain(text) =>
      FlatMapOne(PieceOf, (), Text(text));
      FlatMapOne(UseOf, (), Text(text));
      FlatMapOne(OutcomeOf, (), Text(text));
    case Parts(parts) =>
      forall p
        ensures FlatMap(PieceOf, (), OpenAI.ParsePart((), p)) == OpenAIPiece((), p)
        ensures FlatMap(UseOf, (), OpenAI.ParsePart((), p)) == Nothing((), p)
        ensures FlatMap(OutcomeOf, (), OpenAI.ParsePart((), p)) == Nothing((), p)
      {
        if OpenAI.ParsePart((), p) != [] {
          FlatMapOne(PieceOf, (), OpenAI.ParsePart((), p)[0]);
          FlatMapOne(UseOf, (), OpenAI.ParsePart((), p)[0]);
          FlatMapOne(OutcomeOf, (), OpenAI.ParsePart((), p)[0]);
        }
      }
      FlatMapFusion(OpenAI.ParsePart, PieceOf, OpenAIPiece, (), parts);
      FlatMapFusion(OpenAI.ParsePart, UseOf, Nothing, (), parts);
      FlatMapFusion(OpenAI.ParsePart, OutcomeOf, Nothing, (), parts);
      NothingComes<(), OpenAI.Part, Use>((), parts);
      NothingComes<(), OpenAI.Part, Outcome>((), parts);
    case _ =>
  }

  function Nothing<E, A, B>(env: E, a: A): seq<B> {
    []
  }

  lemma {:induction false} NothingComes<E, A, B>(env: E, xs: seq<A>)
    ensures FlatMap<E, A, B>(Nothing, env, xs) == []
  {
    if xs != [] {
      NothingComes<E, A, B>(env, xs[1..]);
    }
  }

  lemma OpenAICallsParse(calls: seq<OpenAI.Call>)
    ensures
      var uses := FlatMap(OpenAI.ParseCall, (), calls);
      NormPieces(uses) == [] && NormUses(uses) == FlatMap(OpenAIUse, (), calls) && NormOutcomes(uses) == []
  {
    forall c
      ensures FlatMap(PieceOf, (), OpenAI.ParseCall((), c)) == Nothing((), c)
      ensures FlatMap(UseOf, (), OpenAI.ParseCall((), c)) == OpenAIUse((), c)
      ensures FlatMap(OutcomeOf, (), OpenAI.ParseCall((), c)) == Nothing((), c)
    {
      FlatMapOne(PieceOf, (), OpenAI.ParseCall((), c)[0]);
      FlatMapOne(UseOf, (), OpenAI.ParseCall((), c)[0]);
      FlatMapOne(OutcomeOf, (), OpenAI.ParseCall((), c)[0]);
    }
    FlatMapFusion(OpenAI.ParseCall, PieceOf, Nothing, (), calls);
    FlatMapFusion(OpenAI.ParseCall, UseOf, OpenAIUse, (), calls);
    FlatMapFusion(OpenAI.ParseCall, OutcomeOf, Nothing, (), calls);
    NothingComes<(), OpenAI.Call, Piece>((), calls);
    NothingComes<(), OpenAI.Call, Outcome>((), calls);
  }

  lemma TurnAppend(a: seq<NormContent>, b: seq<NormContent>)
    ensures NormPieces(a + b) == NormPieces(a) + NormPieces(b)
    ensures NormUses(a + b) == NormUses(a) + NormUses(b)
    ensures NormOutcomes(a + b) == NormOutcomes(a) + NormOutcomes(b)
  {
    FlatMapAppend(PieceOf, (), a, b);
    FlatMapAppend(UseOf, (), a, b);
    FlatMapAppend(OutcomeOf, (), a, b);
  }

  lemma TurnOfOne(c: NormContent)
    ensures NormPieces([c]) == PieceOf((), c) && NormUses([c]) == UseOf((), c) && NormOutcomes([c]) == OutcomeOf((), c)
  {
    FlatMapOne(PieceOf, (), c);
    FlatMapOne(UseOf, (), c);
    FlatMapOne(OutcomeOf, (), c);
  }

  lemma OpenAIMessageParses(json: OpenAI.Json, m: OpenAI.Message)
    ensures FlatMap(TurnOf, json, OpenAI.ParseMessage(json, m)) == OpenAITurn(json, m)
    ensures FlatMap(PieceOf, json, OpenAI.ParseSystem(json, m)) == OpenAISystem(json, m)
  {
    OpenAIContentParses(m.content);
    OpenAICallsParse(m.toolCalls);
    if m.role == "system" {
      SamePieces(json, OpenAI.ParseContent(m.content));
    } else if m.role == "tool" {
      var c := ToolResult(m.toolCallId, OpenAI.ContentString(json, m.content), false);
      TurnOfOne(c);
      FlatMapOne(TurnOf, json, NormMessage("user", [c]));
    } else {
      var content, uses := OpenAI.ParseContent(m.content), FlatMap(OpenAI.ParseCall, (), m.toolCalls);
      TurnAppend(content, uses);
      FlatMapOne(TurnOf, json, NormMessage(m.role, content + uses));
      assert OpenAIPieces(m.content) + [] == OpenAIPieces(m.content);
      assert [] + FlatMap(OpenAIUse, (), m.toolCalls) == FlatMap(OpenAIUse, (), m.toolCalls);
    }
  }

  /** The environment does not show. */
  lemma {:induction false} SamePieces<E>(env: E, cs: seq<NormContent>)
    ensures FlatMap(PieceOf, env, cs) == NormPieces(cs)
  {
    if cs != [] {
      SamePieces(env, cs[1..]);
    }
  }

  /** Parsing an OpenAI body keeps every turn of it, and its system messages join the system prompt. */
  lemma OpenAIParses(json: OpenAI.Json, body: OpenAI.OpenAIRequest)
    ensures
      var nr := OpenAI.Parsed(json, body);
      && FlatMap(TurnOf, json, nr.messages) == FlatMap(OpenAITurn, json, body.messages)
      && NormPieces(nr.system) == FlatMap(OpenAISystem, json, body.messages)
  {
    forall m
      ensures FlatMap(TurnOf, json, OpenAI.ParseMessage(json, m)) == OpenAITurn(json, m)
      ensures FlatMap(PieceOf, json, OpenAI.ParseSystem(json, m)) == OpenAISystem(json, m)
    {
      OpenAIMessageParses(json, m);
    }
    FlatMapFusion(OpenAI.ParseMessage, TurnOf, OpenAITurn, json, body.messages);
    FlatMapFusion(OpenAI.ParseSystem, PieceOf, OpenAISystem, json, body.messages);
    SamePieces(json, OpenAI.Parsed(json, body).system);
  }

  // ---- the Codex parser ----

  lemma CodexContentParses(content: Option<seq<Codex.CodexBlock>>)
    ensures
      var cs := Codex.ParseContent(content);
      NormPieces(cs) == CodexPieces(content) && NormUses(cs) == [] && NormOutcomes(cs) == []
  {
    if content.Some? {
      CodexBlocksParse(content.value);
    }
  }

  lemma {:induction false} CodexBlocksParse(blocks: seq<Codex.CodexBlock>)
    ensures
      var cs := FlatMap(Codex.ParseBlock, "", blocks);
      NormPieces(cs) == FlatMap(CodexPiece, "", blocks) && NormUses(cs) == [] && NormOutcomes(cs) == []
  {
    if blocks != [] {
      CodexBlocksParse(blocks[1..]);
      var first := Codex.ParseBlock("", blocks[0]);
      TurnAppend(first, FlatMap(Codex.ParseBlock, "", blocks[1..]));
      if first != [] {
        TurnOfOne(first[0]);
        assert first == [first[0]];
      }
    }
  }

  lemma CodexItemParses(json: Syntax, item: Codex.CodexItem)
    ensures FlatMap(TurnOf, json, Codex.ParseItem(json, item)) == CodexTurn(json, item)
  {
    match item
    case MessageItem(role, content) =>
      CodexContentParses(content);
      FlatMapOne(TurnOf, json, Codex.ParseItem(json, item)[0]);
    case FunctionCall(id, name, arguments) =>
      TurnOfOne(ToolUse(id, name, arguments));
      FlatMapOne(TurnOf, json, Codex.ParseItem(json, item)[0]);
    case FunctionCallOutput(id, output) =>
      TurnOfOne(ToolResult(id, output, false));
      FlatMapOne(TurnOf, json, Codex.ParseItem(json, item)[0]);
    case OtherItem =>
  }

  /** Parsing a Codex body keeps every turn of it, and its instructions are the system prompt. */
  lemma CodexParses(json: Syntax, body: Codex.CodexRequest)
    ensures
      var nr := Codex.Parsed(json, body);
      && FlatMap(TurnOf, json, nr.messages) == FlatMap(CodexTurn, json, body.input)
      && NormPieces(nr.system) == if body.instructions == "" then [] else [Words(body.instructions)]
  {
    forall item ensures FlatMap(TurnOf, json, Codex.ParseItem(json, item)) == CodexTurn(json, item) {
      CodexItemParses(json, item);
    }
    FlatMapFusion(Codex.ParseItem, TurnOf, CodexTurn, json, body.input);
    if body.instructions != "" {
      TurnOfOne(Text(body.instructions));
    }
  }
}
