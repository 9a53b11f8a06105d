/** internal/translate, the whole responses: what each protocol's parser and builder make of one, and what is left of an
    answer that is translated. */
module Responses {
  import opened Wrappers
  import opened Strings
  import opened Lists
  import opened Norm
  import Streams
  import Anthropic
  import OpenAI

  datatype Tokens = Tokens(input: int, output: int)

  datatype NormResponse = NormResponse(model: string, stopReason: string, content: seq<NormContent>, usage: Tokens)

  datatype AnthropicReply = AnthropicReply(
    model: string, stopReason: string, content: Anthropic.Content, usage: Option<Tokens>)

  datatype OpenAIUsage = OpenAIUsage(prompt: int, completion: int, total: int)

  /** The fields of the first choice; a reply without one reads as empty fields. */
  datatype OpenAIReply = OpenAIReply(
    model: string, finishReason: string, content: OpenAI.Content, calls: seq<OpenAI.Call>, usage: Option<OpenAIUsage>)

  datatype OutputBlock = OutputBlock(kind: string, text: Option<string>)

  datatype Output =
    | MessageOutput(blocks: seq<OutputBlock>)
    | CallOutput(id: string, name: string, arguments: string)
    | OtherOutput

  datatype CodexReply = CodexReply(model: string, status: string, output: seq<Output>, usage: Option<Tokens>)

  /** A reply that did not marshal. */
  const NO_REPLY := AnthropicReply("", "", Anthropic.Missing, None)

  function UsageOr(usage: Option<Tokens>): Tokens {
    if usage.Some? then usage.value else Tokens(0, 0)
  }

  // ---- Anthropic ----

  /** mapAnthropicStopReason and unmapAnthropicStopReason. */
  function KnownReason(s: string): string {
    if s == "max_tokens" || s == "stop_sequence" || s == "tool_use" then s else "end_turn"
  }

  function ParsedAnthropic(r: AnthropicReply): NormResponse {
    NormResponse(r.model, KnownReason(r.stopReason), Anthropic.ParseContent(r.content), UsageOr(r.usage))
  }

  function BuiltAnthropic(json: Syntax, nr: NormResponse): AnthropicReply {
    if !Anthropic.ContentMarshals(json, nr.content) then NO_REPLY
    else
      AnthropicReply(nr.model, KnownReason(nr.stopReason), Anthropic.BuildContent(json, nr.content), Some(nr.usage))
  }

  method ParseAnthropicResponse(r: AnthropicReply) returns (nr: NormResponse)
    ensures nr == ParsedAnthropic(r)
  {
    var content := Anthropic.ParseAnthropicContent(r.content);
    var usage := Tokens(0, 0);
    if r.usage.Some? {
      usage := r.usage.value;
    }
    nr := NormResponse(r.model, KnownReason(r.stopReason), content, usage);
  }

  method BuildAnthropicResponse(json: Syntax, nr: NormResponse) returns (r: AnthropicReply)
    ensures r == BuiltAnthropic(json, nr)
  {
    var content := Anthropic.BuildAnthropicContent(json, nr.content);
    if !Anthropic.ContentMarshals(json, nr.content) {
      return NO_REPLY;
    }
    r := AnthropicReply(nr.model, KnownReason(nr.stopReason), content, Some(nr.usage));
  }

  // ---- OpenAI ----

  predicate IsText(c: NormContent) {
    c.Text?
  }

  function WordsOf(u: (), c: NormContent): string {
    if c.Text? then c.text else ""
  }

  /** The text blocks joined; thinking is not among them. */
  function TextIn(cs: seq<NormContent>): string {
    FlatMap(WordsOf, (), cs)
  }

  function ParsedOpenAI(json: OpenAI.Json, r: OpenAIReply): NormResponse {
    var t := OpenAI.ContentString(json, r.content);
    NormResponse(
      r.model,
      Streams.MapFinishReason(r.finishReason),
      (if t != "" then [Text(t)] else []) + FlatMap(OpenAI.ParseCall, (), r.calls),
      if r.usage.Some? then Tokens(r.usage.value.prompt, r.usage.value.completion) else Tokens(0, 0))
  }

  function BuiltContent(cs: seq<NormContent>): OpenAI.Content {
    if Filter(IsText, cs) == [] then OpenAI.Null else OpenAI.Plain(TextIn(cs))
  }

  function BuiltOpenAI(json: OpenAI.Json, nr: NormResponse): OpenAIReply {
    OpenAIReply(
      nr.model,
      Streams.UnmapFinishReason(nr.stopReason),
      BuiltContent(nr.content),
      FlatMap(OpenAI.BuildCall, json, Filter(IsUse, nr.content)),
      Some(OpenAIUsage(nr.usage.input, nr.usage.output, nr.usage.input + nr.usage.output)))
  }

  method ParseOpenAIResponse(json: OpenAI.Json, r: OpenAIReply) returns (nr: NormResponse)
    ensures nr == ParsedOpenAI(json, r)
  {
    var content := [];
    var t := OpenAI.ContentString(json, r.content);
    if t != "" {
      content := [Text(t)];
    }
    var calls := OpenAI.ParseToolCalls(r.calls);
    var usage := Tokens(0, 0);
    if r.usage.Some? {
      usage := Tokens(r.usage.value.prompt, r.usage.value.completion);
    }
    nr := NormResponse(r.model, Streams.MapFinishReason(r.finishReason), content + calls, usage);
  }

  /** The texts, joined, whether there is any, and the tool uses. */
  method Parts(cs: seq<NormContent>) returns (text: string, some: bool, uses: seq<NormContent>)
    ensures text == TextIn(cs) && some == (Filter(IsText, cs) != []) && uses == Filter(IsUse, cs)
  {
    text, some, uses := "", false, [];
    var i := 0;
    while i < |cs|
      invariant 0 <= i <= |cs|
      invariant text == TextIn(cs[..i]) && some == (Filter(IsText, cs[..i]) != []) && uses == Filter(IsUse, cs[..i])
    {
      FlatMapStep(WordsOf, (), cs, i);
      FilterStep(IsText, cs, i);
      FilterStep(IsUse, cs, i);
      if cs[i].Text? {
        text, some := text + cs[i].text, true;
      } else if cs[i].ToolUse? {
        uses := uses + [cs[i]];
      }
      i := i + 1;
    }
    assert cs[..i] == cs;
  }

  /** The message of the reply: its content, and its calls. */
  method BuildMessage(json: OpenAI.Json, cs: seq<NormContent>) returns (content: OpenAI.Content, calls: seq<OpenAI.Call>)
    ensures content == BuiltContent(cs)
    ensures calls == FlatMap(OpenAI.BuildCall, json, Filter(IsUse, cs))
  {
    var text, some, uses := Parts(cs);
    content := OpenAI.Null;
    if some {
      content := OpenAI.Plain(text);
    }
    calls := OpenAI.BuildToolCalls(json, uses);
  }

  method BuildOpenAIResponse(json: OpenAI.Json, nr: NormResponse) returns (r: OpenAIReply)
    ensures r == BuiltOpenAI(json, nr)
  {
    var content, calls := BuildMessage(json, nr.content);
    r := OpenAIReply(nr.model, Streams.UnmapFinishReason(nr.stopReason), content, calls,
                     Some(OpenAIUsage(nr.usage.input, nr.usage.output, nr.usage.input + nr.usage.output)));
  }

  // ---- Codex ----

  function MapStatus(s: string): string {
    if s == "incomplete" then "max_tokens" else "end_turn"
  }

  function UnmapStatus(s: string): string {
    if s == "max_tokens" then "incomplete" else "completed"
  }

  function ParseBlock(u: (), b: OutputBlock): seq<NormContent> {
    if b.kind == "output_text" || b.text.Some? then [Text(if b.text.Some? then b.text.value else "")] else []
  }

  function ParseOutput(u: (), o: Output): seq<NormContent> {
    match o
    case MessageOutput(blocks) => FlatMap(ParseBlock, (), blocks)
    case CallOutput(id, name, arguments) => [ToolUse(id, name, arguments)]
    case OtherOutput => []
  }

  function ParsedCodex(r: CodexReply): NormResponse {
    NormResponse(r.model, MapStatus(r.status), FlatMap(ParseOutput, (), r.output), UsageOr(r.usage))
  }

  function BuildOutput(json: Syntax, c: NormContent): seq<Output> {
    if c.ToolUse? then [CallOutput(c.id, c.name, EnsureJSONObject(json, c.input))] else []
  }

  function BuiltCodex(json: Syntax, nr: NormResponse): CodexReply {
    CodexReply(
      nr.model,
      UnmapStatus(nr.stopReason),
      (if Filter(IsText, nr.content) == [] then []
       else [MessageOutput([OutputBlock("output_text", Some(TextIn(nr.content)))])])
      + FlatMap(BuildOutput, json, Filter(IsUse, nr.content)),
      Some(nr.usage))
  }

  method ParseBlocks(blocks: seq<OutputBlock>) returns (out: seq<NormContent>)
    ensures out == FlatMap(ParseBlock, (), blocks)
  {
    out := [];
    var i := 0;
    while i < |blocks|
      invariant 0 <= i <= |blocks|
      invariant out == FlatMap(ParseBlock, (), blocks[..i])
    {
      FlatMapStep(ParseBlock, (), blocks, i);
      if blocks[i].kind == "output_text" || blocks[i].text.Some? {
        var t := "";
        if blocks[i].text.Some? {
          t := blocks[i].text.value;
        }
        out := out + [Text(t)];
      }
      i := i + 1;
    }
    assert blocks[..i] == blocks;
  }

  method ParseCodexResponse(r: CodexReply) returns (nr: NormResponse)
    ensures nr == ParsedCodex(r)
  {
    var content := [];
    var i := 0;
    while i < |r.output|
      invariant 0 <= i <= |r.output|
      invariant content == FlatMap(ParseOutput, (), r.output[..i])
    {
      FlatMapStep(ParseOutput, (), r.output, i);
      match r.output[i] {
        case MessageOutput(blocks) =>
          var parsed := ParseBlocks(blocks);
          content := content + parsed;
        case CallOutput(id, name, arguments) => content := content + [ToolUse(id, name, arguments)];
        case OtherOutput =>
      }
      i := i + 1;
    }
    assert r.output[..i] == r.output;
    var usage := Tokens(0, 0);
    if r.usage.Some? {
      usage := r.usage.value;
    }
    nr := NormResponse(r.model, MapStatus(r.status), content, usage);
  }

  method BuildCallOutputs(json: Syntax, uses: seq<NormContent>) returns (output: seq<Output>)
    requires forall c :: c in uses ==> IsUse(c)
    ensures output == FlatMap(BuildOutput, json, uses)
  {
    output := [];
    var i := 0;
    while i < |uses|
      invariant 0 <= i <= |uses|
      invariant output == FlatMap(BuildOutput, json, uses[..i])
    {
      FlatMapStep(BuildOutput, json, uses, i);
      assert IsUse(uses[i]);
      output := output + [CallOutput(uses[i].id, uses[i].name, EnsureJSONObject(json, uses[i].input))];
      i := i + 1;
    }
    assert uses[..i] == uses;
  }

  method BuildCodexResponse(json: Syntax, nr: NormResponse) returns (r: CodexReply)
    ensures r == BuiltCodex(json, nr)
  {
    var text, some, uses := Parts(nr.content);
    var output := [];
    if some {
      output := [MessageOutput([OutputBlock("output_text", Some(text))])];
    }
    var calls := BuildCallOutputs(json, uses);
    r := CodexReply(nr.model, UnmapStatus(nr.stopReason), output + calls, Some(nr.usage));
  }
}
