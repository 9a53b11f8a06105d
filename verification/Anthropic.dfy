/** internal/translate/anthropic.go: the Anthropic Messages request codec. A wire body is the record of the
    fields the code looks up; a body that failed to marshal has none of them. */
module Anthropic {
  import opened Wrappers
  import opened Strings
  import opened Lists
  import opened Norm

  /** An element of a tool result's content array: its type, and its text if it has one. */
  datatype TextPart = TextPart(kind: string, text: Option<string>)

  datatype ResultContent = NoResult | PlainResult(text: string) | ResultParts(parts: seq<TextPart>)

  datatype Block =
    | TextBlock(text: string)
    | ImageBlock(mediaType: string, data: string)
    | ToolUseBlock(id: string, name: string, input: string)
    | ToolResultBlock(toolUseId: string, content: ResultContent, isError: bool)
    | ThinkingBlock(thinking: string)
    | OtherBlock

  datatype Content = Missing | Plain(text: string) | Blocks(blocks: seq<Block>)

  datatype Message = Message(role: string, content: Content)

  datatype AnthropicRequest = AnthropicRequest(
    model: string,
    stream: bool,
    maxTokens: Option<int>,
    temperature: Option<real>,
    topP: Option<real>,
    stopSequences: seq<string>,
    system: Content,
    messages: seq<Message>,
    tools: seq<WireTool>)

  const NO_BODY := AnthropicRequest("", false, None, None, None, [], Missing, [], [])

  // ---- parse ----

  function PartText(u: (), p: TextPart): string {
    if p.kind == "text" || p.text.Some? then (match p.text case Some(t) => t case None => "") else ""
  }

  function RenderedResult(c: ResultContent): string {
    match c
    case NoResult => ""
    case PlainResult(text) => text
    case ResultParts(parts) => FlatMap(PartText, (), parts)
  }

  /** contentText, over a string builder. */
  method ContentText(c: ResultContent) returns (s: string)
    ensures s == RenderedResult(c)
  {
    match c {
      case NoResult => s := "";
      case PlainResult(text) => s := text;
      case ResultParts(parts) =>
        s := "";
        var i := 0;
        while i < |parts|
          invariant 0 <= i <= |parts|
          invariant s == FlatMap(PartText, (), parts[..i])
        {
          FlatMapStep(PartText, (), parts, i);
          if parts[i].kind == "text" || parts[i].text.Some? {
            if parts[i].text.Some? {
              s := s + parts[i].text.value;
            }
          }
          i := i + 1;
        }
        assert parts[..i] == parts;
    }
  }

  function ParseBlock(u: (), b: Block): seq<NormContent> {
    match b
    case TextBlock(text) => [Text(text)]
    case ImageBlock(mediaType, data) => [Image(mediaType, data)]
    case ToolUseBlock(id, name, input) => [ToolUse(id, name, input)]
    case ToolResultBlock(id, content, isError) => [ToolResult(id, RenderedResult(content), isError)]
    case ThinkingBlock(thinking) => [Thinking(thinking)]
    case OtherBlock => []
  }

  function ParseContent(c: Content): seq<NormContent> {
    match c
    case Missing => []
    case Plain(text) => [Text(text)]
    case Blocks(blocks) => FlatMap(ParseBlock, (), blocks)
  }

  function ParseMessage(u: (), m: Message): seq<NormMessage> {
    [NormMessage(m.role, ParseContent(m.content))]
  }

  function Parsed(body: AnthropicRequest): NormRequest {
    NormRequest(
      body.model,
      body.stream,
      ParseContent(body.system),
      FlatMap(ParseMessage, (), body.messages),
      ParseTools(body.tools),
      if body.maxTokens.Some? then body.maxTokens.value else 0,
      body.temperature,
      body.topP,
      body.stopSequences)
  }

  method ParseAnthropicContent(c: Content) returns (out: seq<NormContent>)
    ensures out == ParseContent(c)
  {
    match c {
      case Missing => out := [];
      case Plain(text) => out := [Text(text)];
      case Blocks(blocks) =>
        out := [];
        var i := 0;
        while i < |blocks|
          invariant 0 <= i <= |blocks|
          invariant out == FlatMap(ParseBlock, (), blocks[..i])
        {
          FlatMapStep(ParseBlock, (), blocks, i);
          match blocks[i] {
            case TextBlock(text) => out := out + [Text(text)];
            case ImageBlock(mediaType, data) => out := out + [Image(mediaType, data)];
            case ToolUseBlock(id, name, input) => out := out + [ToolUse(id, name, input)];
            case ToolResultBlock(id, content, isError) =>
              var text := ContentText(content);
              out := out + [ToolResult(id, text, isError)];
            case ThinkingBlock(thinking) => out := out + [Thinking(thinking)];
            case OtherBlock =>
          }
          i := i + 1;
        }
        assert blocks[..i] == blocks;
    }
  }

  method ParseAnthropicRequest(body: AnthropicRequest) returns (nr: NormRequest)
    ensures nr == Parsed(body)
  {
    var maxTokens := 0;
    if body.maxTokens.Some? {
      maxTokens := body.maxTokens.value;
    }
    var system := ParseAnthropicContent(body.system);
    var messages := [];
    var i := 0;
    while i < |body.messages|
      invariant 0 <= i <= |body.messages|
      invariant messages == FlatMap(ParseMessage, (), body.messages[..i])
    {
      FlatMapStep(ParseMessage, (), body.messages, i);
      var content := ParseAnthropicContent(body.messages[i].content);
      messages := messages + [NormMessage(body.messages[i].role, content)];
      i := i + 1;
    }
    assert body.messages[..i] == body.messages;
    nr := NormRequest(body.model, body.stream, system, messages, ParseTools(body.tools), maxTokens,
                      body.temperature, body.topP, body.stopSequences);
  }

  // ---- build ----

  function BuildBlock(json: Syntax, c: NormContent): seq<Block> {
    match c
    case Text(text) => [TextBlock(text)]
    case Thinking(text) => [TextBlock(text)]
    case Image(mediaType, data) => [ImageBlock(mediaType, data)]
    case ToolUse(id, name, input) => [ToolUseBlock(id, name, Embedded(json, input))]
    case ToolResult(id, result, isError) => [ToolResultBlock(id, PlainResult(result), isError)]
  }

  function BuildContent(json: Syntax, cs: seq<NormContent>): Content {
    Blocks(FlatMap(BuildBlock, json, cs))
  }

  function BuildMessage(json: Syntax, m: NormMessage): seq<Message> {
    [Message(m.role, BuildContent(json, m.content))]
  }

  /** Every piece of raw JSON in the request marshals. */
  predicate ContentMarshals(json: Syntax, cs: seq<NormContent>) {
    forall c :: c in cs && c.ToolUse? ==> json.valid(JsonRaw(c.input))
  }

  predicate Marshals(json: Syntax, nr: NormRequest) {
    && ContentMarshals(json, nr.system)
    && (forall m :: m in nr.messages ==> ContentMarshals(json, m.content))
    && SchemasMarshal(json, nr.tools)
  }

  function Built(json: Syntax, nr: NormRequest): AnthropicRequest {
    if !Marshals(json, nr) then NO_BODY
    else
      AnthropicRequest(
        nr.model,
        nr.stream,
        Some(if nr.maxTokens > 0 then nr.maxTokens else 1024),
        nr.temperature,
        nr.topP,
        nr.stop,
        if nr.system == [] then Missing else BuildContent(json, nr.system),
        FlatMap(BuildMessage, json, nr.messages),
        BuildTools(json, nr.tools))
  }

  method BuildAnthropicContent(json: Syntax, cs: seq<NormContent>) returns (c: Content)
    ensures c == BuildContent(json, cs)
  {
    var out: seq<Block> := [];
    var i := 0;
    while i < |cs|
      invariant 0 <= i <= |cs|
      invariant out == FlatMap(BuildBlock, json, cs[..i])
    {
      FlatMapStep(BuildBlock, json, cs, i);
      match cs[i] {
        case Text(text) => out := out + [TextBlock(text)];
        case Thinking(text) => out := out + [TextBlock(text)];
        case Image(mediaType, data) => out := out + [ImageBlock(mediaType, data)];
        case ToolUse(id, name, input) => out := out + [ToolUseBlock(id, name, Embedded(json, input))];
        case ToolResult(id, result, isError) => out := out + [ToolResultBlock(id, PlainResult(result), isError)];
      }
      i := i + 1;
    }
    assert cs[..i] == cs;
    return Blocks(out);
  }

  method BuildAnthropicRequest(json: Syntax, nr: NormRequest) returns (body: AnthropicRequest)
    ensures body == Built(json, nr)
  {
    var maxTokens := 1024;
    if nr.maxTokens > 0 {
      maxTokens := nr.maxTokens;
    }
    var system := Missing;
    if |nr.system| > 0 {
      system := BuildAnthropicContent(json, nr.system);
    }
    var messages: seq<Message> := [];
    var i := 0;
    while i < |nr.messages|
      invariant 0 <= i <= |nr.messages|
      invariant messages == FlatMap(BuildMessage, json, nr.messages[..i])
    {
      FlatMapStep(BuildMessage, json, nr.messages, i);
      var content := BuildAnthropicContent(json, nr.messages[i].content);
      messages := messages + [Message(nr.messages[i].role, content)];
      i := i + 1;
    }
    assert nr.messages[..i] == nr.messages;
    if !Marshals(json, nr) {
      return NO_BODY;
    }
    body := AnthropicRequest(nr.model, nr.stream, Some(maxTokens), nr.temperature, nr.topP, nr.stop, system, messages,
                             BuildTools(json, nr.tools));
  }

  // ---- parse after build ----

  function Relayed(json: Syntax, nr: NormRequest): NormRequest {
    Parsed(Built(json, nr))
  }

  /** What a block is rebuilt as: thinking turns into text, tool input into its compact form. */
  function Rebuilt(json: Syntax, c: NormContent): NormContent {
    match c
    case Thinking(text) => Text(text)
    case ToolUse(id, name, input) => ToolUse(id, name, Embedded(json, input))
    case _ => c
  }

  function RebuiltContent(json: Syntax, cs: seq<NormContent>): (r: seq<NormContent>)
    ensures |r| == |cs| && forall i :: 0 <= i < |cs| ==> r[i] == Rebuilt(json, cs[i])
  {
    seq(|cs|, i requires 0 <= i < |cs| => Rebuilt(json, cs[i]))
  }

  function RebuiltMessages(json: Syntax, ms: seq<NormMessage>): (r: seq<NormMessage>)
    ensures |r| == |ms|
    ensures forall i :: 0 <= i < |ms| ==> r[i] == NormMessage(ms[i].role, RebuiltContent(json, ms[i].content))
  {
    seq(|ms|, i requires 0 <= i < |ms| => NormMessage(ms[i].role, RebuiltContent(json, ms[i].content)))
  }

  lemma BlockBecomes(json: Syntax, c: NormContent)
    ensures |BuildBlock(json, c)| == 1 && ParseBlock((), BuildBlock(json, c)[0]) == [Rebuilt(json, c)]
  {
  }

  lemma {:induction false} ContentRelayed(json: Syntax, cs: seq<NormContent>)
    ensures ParseContent(BuildContent(json, cs)) == RebuiltContent(json, cs)
  {
    if cs != [] {
      ContentRelayed(json, cs[1..]);
      var first := BuildBlock(json, cs[0]);
      BlockBecomes(json, cs[0]);
      FlatMapAppend(ParseBlock, (), first, FlatMap(BuildBlock, json, cs[1..]));
      assert first == [first[0]];
      FlatMapOne(ParseBlock, (), first[0]);
      assert RebuiltContent(json, cs) == [Rebuilt(json, cs[0])] + RebuiltContent(json, cs[1..]);
    }
  }

  lemma {:induction false} MessagesRelayed(json: Syntax, ms: seq<NormMessage>)
    ensures FlatMap(ParseMessage, (), FlatMap(BuildMessage, json, ms)) == RebuiltMessages(json, ms)
  {
    if ms != [] {
      MessagesRelayed(json, ms[1..]);
      ContentRelayed(json, ms[0].content);
      var first := BuildMessage(json, ms[0]);
      FlatMapAppend(ParseMessage, (), first, FlatMap(BuildMessage, json, ms[1..]));
      FlatMapOne(ParseMessage, (), first[0]);
      assert first == [first[0]];
      assert RebuiltMessages(json, ms) ==
             [NormMessage(ms[0].role, RebuiltContent(json, ms[0].content))] + RebuiltMessages(json, ms[1..]);
    }
  }

  /** The request with every raw JSON compacted, thinking as text, and a token limit. */
  function Normalised(json: Syntax, nr: NormRequest): NormRequest {
    nr.(maxTokens := if nr.maxTokens > 0 then nr.maxTokens else 1024,
        system := RebuiltContent(json, nr.system),
        messages := RebuiltMessages(json, nr.messages),
        tools := RelayedTools(json, nr.tools))
  }

  /** Parse after build normalises a request that marshals; one that does not arrives empty. */
  lemma AnthropicRelay(json: Syntax, nr: NormRequest)
    ensures Relayed(json, nr) == if Marshals(json, nr) then Normalised(json, nr) else Parsed(NO_BODY)
  {
    ContentRelayed(json, nr.system);
    MessagesRelayed(json, nr.messages);
  }

  // ---- what a relay changes ----

  /** A block that arrives as it left. */
  predicate Faithful(json: Syntax, c: NormContent) {
    !c.Thinking? && (c.ToolUse? ==> Compact(json, c.input))
  }

  predicate AllFaithful(json: Syntax, cs: seq<NormContent>) {
    forall c :: c in cs ==> Faithful(json, c)
  }

  lemma RebuiltSame(json: Syntax, c: NormContent)
    requires Lawful(json) && (c.ToolUse? ==> json.valid(JsonRaw(c.input)))
    ensures Rebuilt(json, c) == c <==> Faithful(json, c)
    ensures Rebuilt(json, Rebuilt(json, c)) == Rebuilt(json, c)
    ensures c.ToolUse? ==> json.valid(JsonRaw(Rebuilt(json, c).input))
  {
    if c.ToolUse? {
      EmbeddedSettles(json, c.input);
    }
  }

  lemma ContentRoundTrip(json: Syntax, cs: seq<NormContent>)
    requires Lawful(json) && ContentMarshals(json, cs)
    ensures RebuiltContent(json, cs) == cs <==> AllFaithful(json, cs)
    ensures RebuiltContent(json, RebuiltContent(json, cs)) == RebuiltContent(json, cs)
    ensures ContentMarshals(json, RebuiltContent(json, cs))
  {
    var once := RebuiltContent(json, cs);
    forall i | 0 <= i < |cs|
      ensures once[i] == cs[i] <==> Faithful(json, cs[i])
      ensures Rebuilt(json, once[i]) == once[i] && (once[i].ToolUse? ==> json.valid(JsonRaw(once[i].input)))
    {
      assert cs[i] in cs;
      RebuiltSame(json, cs[i]);
    }
    assert RebuiltContent(json, once) == once;
    if once == cs {
      forall c | c in cs ensures Faithful(json, c) {
        var i :| 0 <= i < |cs| && cs[i] == c;
      }
    }
  }

  lemma MessagesRoundTrip(json: Syntax, ms: seq<NormMessage>)
    requires Lawful(json) && forall m :: m in ms ==> ContentMarshals(json, m.content)
    ensures RebuiltMessages(json, ms) == ms <==> forall m :: m in ms ==> AllFaithful(json, m.content)
    ensures RebuiltMessages(json, RebuiltMessages(json, ms)) == RebuiltMessages(json, ms)
    ensures forall m :: m in RebuiltMessages(json, ms) ==> ContentMarshals(json, m.content)
  {
    var once := RebuiltMessages(json, ms);
    forall i | 0 <= i < |ms|
      ensures once[i] == ms[i] <==> AllFaithful(json, ms[i].content)
      ensures RebuiltContent(json, once[i].content) == once[i].content && ContentMarshals(json, once[i].content)
    {
      assert ms[i] in ms;
      ContentRoundTrip(json, ms[i].content);
    }
    assert RebuiltMessages(json, once) == once;
    if once == ms {
      forall m | m in ms ensures AllFaithful(json, m.content) {
        var i :| 0 <= i < |ms| && ms[i] == m;
      }
    }
  }

  /** A request the Anthropic codec relays unchanged, to the letter. */
  ghost predicate Unchanging(json: Syntax, nr: NormRequest) {
    && Marshals(json, nr)
    && nr.maxTokens > 0
    && AllFaithful(json, nr.system)
    && (forall m :: m in nr.messages ==> AllFaithful(json, m.content))
    && (forall t :: t in nr.tools ==> Compact(json, t.schema))
  }

  /** Parse after build is the identity, exactly on those. */
  lemma AnthropicRoundTrip(json: Syntax, nr: NormRequest)
    requires Lawful(json)
    ensures Relayed(json, nr) == nr <==> Unchanging(json, nr)
  {
    AnthropicRelay(json, nr);
    if Marshals(json, nr) {
      ContentRoundTrip(json, nr.system);
      MessagesRoundTrip(json, nr.messages);
      ToolsNormalise(json, nr.tools);
    } else {
      assert Relayed(json, nr).system == [] && Relayed(json, nr).messages == [] && Relayed(json, nr).tools == [];
    }
  }

  /** It is idempotent exactly on the requests that marshal: an empty body comes back with a token limit. */
  lemma AnthropicNormalises(json: Syntax, nr: NormRequest)
    requires Lawful(json)
    ensures Relayed(json, Relayed(json, nr)) == Relayed(json, nr) <==> Marshals(json, nr)
  {
    AnthropicRelay(json, nr);
    AnthropicRelay(json, Relayed(json, nr));
    if Marshals(json, nr) {
      ContentRoundTrip(json, nr.system);
      MessagesRoundTrip(json, nr.messages);
      ToolsNormalise(json, nr.tools);
    } else {
      assert Relayed(json, nr).maxTokens == 0;
      assert Marshals(json, Relayed(json, nr)) ==> Relayed(json, Relayed(json, nr)).maxTokens == 1024;
      assert Relayed(json, nr).system == [] && Relayed(json, nr).messages == [] && Relayed(json, nr).tools == [];
    }
  }

  // ---- equality as JSON values ----

  predicate SameBlock(json: Syntax, a: NormContent, b: NormContent) {
    if a.ToolUse? && b.ToolUse? then a.id == b.id && a.name == b.name && SameValue(json, a.input, b.input) else a == b
  }

  predicate SameContent(json: Syntax, a: seq<NormContent>, b: seq<NormContent>) {
    |a| == |b| && forall i :: 0 <= i < |a| ==> SameBlock(json, a[i], b[i])
  }

  predicate SameMessages(json: Syntax, a: seq<NormMessage>, b: seq<NormMessage>) {
    |a| == |b| && forall i :: 0 <= i < |a| ==> a[i].role == b[i].role && SameContent(json, a[i].content, b[i].content)
  }

  predicate SameTools(json: Syntax, a: seq<NormTool>, b: seq<NormTool>) {
    && |a| == |b|
    && forall i :: 0 <= i < |a| ==>
         a[i].name == b[i].name && a[i].description == b[i].description && SameValue(json, a[i].schema, b[i].schema)
  }

  /** Two requests that differ at most in how their raw JSON is spelt. */
  predicate SameRequest(json: Syntax, a: NormRequest, b: NormRequest) {
    && a.(system := b.system, messages := b.messages, tools := b.tools) == b
    && SameContent(json, a.system, b.system)
    && SameMessages(json, a.messages, b.messages)
    && SameTools(json, a.tools, b.tools)
  }

  /** A block whose value survives: thinking becomes text, and blank input a value it was not. */
  predicate KeepsValue(c: NormContent) {
    !c.Thinking? && (c.ToolUse? ==> !Blank(c.input))
  }

  predicate AllKeepValue(cs: seq<NormContent>) {
    forall c :: c in cs ==> KeepsValue(c)
  }

  lemma BlockKeepsValue(json: Syntax, c: NormContent)
    requires Lawful(json) && (c.ToolUse? ==> json.valid(JsonRaw(c.input)))
    ensures SameBlock(json, Rebuilt(json, c), c) <==> KeepsValue(c)
  {
    if c.ToolUse? {
      UseKeepsValue(json, c.id, c.name, c.input);
    }
  }

  lemma UseKeepsValue(json: Syntax, id: string, name: string, input: string)
    requires Lawful(json) && json.valid(JsonRaw(input))
    ensures SameBlock(json, Rebuilt(json, ToolUse(id, name, input)), ToolUse(id, name, input)) <==> !Blank(input)
  {
    RebuiltUse(json, id, name, input);
    EmbeddedKeepsValue(json, input);
  }

  lemma RebuiltUse(json: Syntax, id: string, name: string, input: string)
    ensures SameBlock(json, Rebuilt(json, ToolUse(id, name, input)), ToolUse(id, name, input)) <==>
            SameValue(json, Embedded(json, input), input)
  {
    UseSame(json, id, name, Embedded(json, input), input);
  }

  lemma UseSame(json: Syntax, id: string, name: string, a: string, b: string)
    ensures SameBlock(json, ToolUse(id, name, a), ToolUse(id, name, b)) <==> SameValue(json, a, b)
  {
  }

  lemma ContentKeepsValue(json: Syntax, cs: seq<NormContent>)
    requires Lawful(json) && ContentMarshals(json, cs)
    ensures SameContent(json, RebuiltContent(json, cs), cs) <==> AllKeepValue(cs)
  {
    forall i | 0 <= i < |cs| ensures SameBlock(json, Rebuilt(json, cs[i]), cs[i]) <==> KeepsValue(cs[i]) {
      assert cs[i] in cs;
      BlockKeepsValue(json, cs[i]);
    }
    if SameContent(json, RebuiltContent(json, cs), cs) {
      forall c | c in cs ensures KeepsValue(c) {
        var i :| 0 <= i < |cs| && cs[i] == c;
        assert SameBlock(json, RebuiltContent(json, cs)[i], cs[i]);
      }
    }
  }

  lemma MessagesKeepValues(json: Syntax, ms: seq<NormMessage>)
    requires Lawful(json) && forall m :: m in ms ==> ContentMarshals(json, m.content)
    ensures SameMessages(json, RebuiltMessages(json, ms), ms) <==> forall m :: m in ms ==> AllKeepValue(m.content)
  {
    var once := RebuiltMessages(json, ms);
    forall i | 0 <= i < |ms| ensures SameContent(json, once[i].content, ms[i].content) <==> AllKeepValue(ms[i].content) {
      assert ms[i] in ms;
      ContentKeepsValue(json, ms[i].content);
    }
    if SameMessages(json, once, ms) {
      forall m | m in ms ensures AllKeepValue(m.content) {
        var i :| 0 <= i < |ms| && ms[i] == m;
        assert once[i].role == ms[i].role;
      }
    }
  }

  lemma ToolsKeepValues(json: Syntax, ts: seq<NormTool>)
    requires Lawful(json) && SchemasMarshal(json, ts)
    ensures SameTools(json, RelayedTools(json, ts), ts) <==> forall t :: t in ts ==> !Blank(t.schema)
  {
    var once := RelayedTools(json, ts);
    forall i | 0 <= i < |ts| ensures SameValue(json, once[i].schema, ts[i].schema) <==> !Blank(ts[i].schema) {
      assert ts[i] in ts;
      EmbeddedKeepsValue(json, ts[i].schema);
    }
    if SameTools(json, once, ts) {
      forall t | t in ts ensures !Blank(t.schema) {
        var i :| 0 <= i < |ts| && ts[i] == t;
        assert once[i].name == ts[i].name;
      }
    }
  }

  /** Parse after build is the identity as JSON values, exactly on the requests that marshal, limit their tokens, and
      hold neither thinking blocks nor blank raw JSON. */
  lemma AnthropicKeepsValues(json: Syntax, nr: NormRequest)
    requires Lawful(json)
    ensures SameRequest(json, Relayed(json, nr), nr) <==>
            (&& Marshals(json, nr) && nr.maxTokens > 0 && AllKeepValue(nr.system)
             && (forall m :: m in nr.messages ==> AllKeepValue(m.content))
             && (forall t :: t in nr.tools ==> !Blank(t.schema)))
  {
    AnthropicRelay(json, nr);
    if Marshals(json, nr) {
      ContentKeepsValue(json, nr.system);
      MessagesKeepValues(json, nr.messages);
      ToolsKeepValues(json, nr.tools);
      if nr.maxTokens > 0 {
        assert Relayed(json, nr).(system := nr.system, messages := nr.messages, tools := nr.tools) == nr;
      }
    } else {
      assert Relayed(json, nr).system == [] && Relayed(json, nr).messages == [] && Relayed(json, nr).tools == [];
      assert |nr.system| + |nr.messages| + |nr.tools| > 0;
    }
  }
}
