/** internal/translate/openai.go: the OpenAI Chat Completions request codec. A wire body is the record of the
    fields the code looks up; a body that failed to marshal has none of them. */
module OpenAI {
  import opened Wrappers
  import opened Strings
  import opened Lists
  import opened Norm

  datatype Part = TextPart(text: string) | ImagePart(url: string) | OtherPart

  datatype Content = Missing | Null | Plain(text: string) | Parts(parts: seq<Part>)

  datatype Call = Call(id: string, name: string, arguments: string)

  datatype Message = Message(role: string, content: Content, toolCalls: seq<Call>, toolCallId: string)

  datatype Stop = NoStop | OneStop(s: string) | Stops(ss: seq<string>)

  datatype OpenAIRequest = OpenAIRequest(
    model: string,
    stream: bool,
    maxTokens: Option<int>,
    temperature: Option<real>,
    topP: Option<real>,
    stop: Stop,
    messages: seq<Message>,
    tools: seq<WireTool>)

  const NO_BODY := OpenAIRequest("", false, None, None, None, NoStop, [], [])

  /** The JSON library: its syntax check, and the text gjson shows for a content array read as a string. */
  datatype Json = Json(syntax: Syntax, show: seq<Part> -> string)

  // ---- parse ----

  function ParsePart(u: (), p: Part): seq<NormContent> {
    match p
    case TextPart(text) => [Text(text)]
    case ImagePart(url) => [ReadImage(url)]
    case OtherPart => []
  }

  function ParseContent(c: Content): seq<NormContent> {
    match c
    case Plain(text) => [Text(text)]
    case Parts(parts) => FlatMap(ParsePart, (), parts)
    case _ => []
  }

  function ContentString(json: Json, c: Content): string {
    match c
    case Plain(text) => text
    case Parts(parts) => json.show(parts)
    case _ => ""
  }

  function ParseCall(u: (), c: Call): seq<NormContent> {
    [ToolUse(c.id, c.name, c.arguments)]
  }

  function ParseMessage(json: Json, m: Message): seq<NormMessage> {
    if m.role == "tool" then
      [NormMessage("user", [ToolResult(m.toolCallId, ContentString(json, m.content), false)])]
    else if m.role == "system" then []
    else [NormMessage(m.role, ParseContent(m.content) + FlatMap(ParseCall, (), m.toolCalls))]
  }

  function ParseSystem(json: Json, m: Message): seq<NormContent> {
    if m.role == "system" then ParseContent(m.content) else []
  }

  function ParseStop(s: Stop): seq<string> {
    match s
    case NoStop => []
    case OneStop(x) => [x]
    case Stops(xs) => xs
  }

  function Parsed(json: Json, body: OpenAIRequest): NormRequest {
    NormRequest(
      body.model,
      body.stream,
      FlatMap(ParseSystem, json, body.messages),
      FlatMap(ParseMessage, json, body.messages),
      ParseTools(body.tools),
      if body.maxTokens.Some? then body.maxTokens.value else 0,
      body.temperature,
      body.topP,
      ParseStop(body.stop))
  }

  method ParseOpenAIContent(c: Content) returns (out: seq<NormContent>)
    ensures out == ParseContent(c)
  {
    out := [];
    match c {
      case Plain(text) => out := [Text(text)];
      case Parts(parts) =>
        var i := 0;
        while i < |parts|
          invariant 0 <= i <= |parts|
          invariant out == FlatMap(ParsePart, (), parts[..i])
        {
          FlatMapStep(ParsePart, (), parts, i);
          match parts[i] {
            case TextPart(text) => out := out + [Text(text)];
            case ImagePart(url) => out := out + [Image(DataURLMediaType(url), DataURLData(url))];
            case OtherPart =>
          }
          i := i + 1;
        }
        assert parts[..i] == parts;
      case _ =>
    }
  }

  method ParseOpenAIRequest(json: Json, body: OpenAIRequest) returns (nr: NormRequest)
    ensures nr == Parsed(json, body)
  {
    var maxTokens := 0;
    if body.maxTokens.Some? {
      maxTokens := body.maxTokens.value;
    }
    var system, messages := [], [];
    var i := 0;
    while i < |body.messages|
      invariant 0 <= i <= |body.messages|
      invariant system == FlatMap(ParseSystem, json, body.messages[..i])
      invariant messages == FlatMap(ParseMessage, json, body.messages[..i])
    {
      FlatMapStep(ParseSystem, json, body.messages, i);
      FlatMapStep(ParseMessage, json, body.messages, i);
      var m := body.messages[i];
      if m.role == "tool" {
        messages := messages + [NormMessage("user", [ToolResult(m.toolCallId, ContentString(json, m.content), false)])];
      } else if m.role == "system" {
        var content := ParseOpenAIContent(m.content);
        system := system + content;
      } else {
        var content := ParseOpenAIContent(m.content);
        var uses := ParseToolCalls(m.toolCalls);
        messages := messages + [NormMessage(m.role, content + uses)];
      }
      i := i + 1;
    }
    assert body.messages[..i] == body.messages;
    nr := NormRequest(body.model, body.stream, system, messages, ParseTools(body.tools), maxTokens,
                      body.temperature, body.topP, ParseStop(body.stop));
  }

  method ParseToolCalls(calls: seq<Call>) returns (out: seq<NormContent>)
    ensures out == FlatMap(ParseCall, (), calls)
  {
    out := [];
    var i := 0;
    while i < |calls|
      invariant 0 <= i <= |calls|
      invariant out == FlatMap(ParseCall, (), calls[..i])
    {
      FlatMapStep(ParseCall, (), calls, i);
      out := out + [ToolUse(calls[i].id, calls[i].name, calls[i].arguments)];
      i := i + 1;
    }
    assert calls[..i] == calls;
  }

  // ---- build ----

  function BuildPart(u: (), c: NormContent): seq<Part> {
    match c
    case Text(text) => [TextPart(text)]
    case Image(mediaType, data) => [ImagePart(DataURL(mediaType, data))]
    case _ => []
  }

  /** The content of a message that is not the assistant's. */
  function BuildUserContent(media: seq<NormContent>): Content {
    if media == [] then Null
    else if |media| == 1 && media[0].Text? then Plain(media[0].text)
    else Parts(FlatMap(BuildPart, (), media))
  }

  function BuildAssistantContent(media: seq<NormContent>): Content {
    if media == [] then Null else Plain(JoinedText(media))
  }

  function BuildCall(json: Json, c: NormContent): seq<Call> {
    if c.ToolUse? then [Call(c.id, c.name, EnsureJSONObject(json.syntax, c.input))] else []
  }

  function BuildResult(json: Json, c: NormContent): seq<Message> {
    if c.ToolResult? then [Message("tool", Plain(c.result), [], c.id)] else []
  }

  function BuildEntry(json: Json, msg: NormMessage): Message {
    var media := Filter(IsMedia, msg.content);
    if msg.role == "assistant" then
      Message(msg.role, BuildAssistantContent(media), FlatMap(BuildCall, json, Filter(IsUse, msg.content)), "")
    else Message(msg.role, BuildUserContent(media), [], "")
  }

  function BuildMessages(json: Json, msg: NormMessage): seq<Message> {
    FlatMap(BuildResult, json, Filter(IsResult, msg.content)) + [BuildEntry(json, msg)]
  }

  function BuildSystem(system: seq<NormContent>): seq<Message> {
    if system == [] then [] else [Message("system", Plain(JoinedText(system)), [], "")]
  }

  function BuildStop(ss: seq<string>): Stop {
    if |ss| == 1 then OneStop(ss[0]) else if |ss| > 1 then Stops(ss) else NoStop
  }

  function Built(json: Json, nr: NormRequest): OpenAIRequest {
    if !SchemasMarshal(json.syntax, nr.tools) then NO_BODY
    else
      OpenAIRequest(
        nr.model,
        nr.stream,
        if nr.maxTokens > 0 then Some(nr.maxTokens) else None,
        nr.temperature,
        nr.topP,
        BuildStop(nr.stop),
        BuildSystem(nr.system) + FlatMap(BuildMessages, json, nr.messages),
        BuildTools(json.syntax, nr.tools))
  }

  method BuildOpenAIUserContent(media: seq<NormContent>) returns (c: Content)
    ensures c == BuildUserContent(media)
  {
    if |media| == 0 {
      return Null;
    }
    if |media| == 1 && media[0].Text? {
      return Plain(media[0].text);
    }
    var out: seq<Part> := [];
    var i := 0;
    while i < |media|
      invariant 0 <= i <= |media|
      invariant out == FlatMap(BuildPart, (), media[..i])
    {
      FlatMapStep(BuildPart, (), media, i);
      match media[i] {
        case Text(text) => out := out + [TextPart(text)];
        case Image(mediaType, data) => out := out + [ImagePart(DataURL(mediaType, data))];
        case _ =>
      }
      i := i + 1;
    }
    assert media[..i] == media;
    return Parts(out);
  }

  method BuildToolCalls(json: Json, toolUses: seq<NormContent>) returns (calls: seq<Call>)
    requires forall c :: c in toolUses ==> IsUse(c)
    ensures calls == FlatMap(BuildCall, json, toolUses)
  {
    calls := [];
    var i := 0;
    while i < |toolUses|
      invariant 0 <= i <= |toolUses|
      invariant calls == FlatMap(BuildCall, json, toolUses[..i])
    {
      FlatMapStep(BuildCall, json, toolUses, i);
      assert toolUses[i] in toolUses;
      calls := calls + [Call(toolUses[i].id, toolUses[i].name, EnsureJSONObject(json.syntax, toolUses[i].input))];
      i := i + 1;
    }
    assert toolUses[..i] == toolUses;
  }

  method BuildToolMessages(json: Json, toolResults: seq<NormContent>) returns (out: seq<Message>)
    requires forall c :: c in toolResults ==> IsResult(c)
    ensures out == FlatMap(BuildResult, json, toolResults)
  {
    out := [];
    var i := 0;
    while i < |toolResults|
      invariant 0 <= i <= |toolResults|
      invariant out == FlatMap(BuildResult, json, toolResults[..i])
    {
      FlatMapStep(BuildResult, json, toolResults, i);
      assert toolResults[i] in toolResults;
      out := out + [Message("tool", Plain(toolResults[i].result), [], toolResults[i].id)];
      i := i + 1;
    }
    assert toolResults[..i] == toolResults;
  }

  method BuildOpenAIMessage(json: Json, msg: NormMessage) returns (out: seq<Message>)
    ensures out == BuildMessages(json, msg)
  {
    var textBlocks, toolResults, toolUses := SplitContent(msg.content);
    out := BuildToolMessages(json, toolResults);
    var entry := Message(msg.role, Null, [], "");
    if msg.role == "assistant" {
      if |textBlocks| > 0 {
        var text := JoinText(textBlocks);
        entry := entry.(content := Plain(text));
      }
      if |toolUses| > 0 {
        var calls := BuildToolCalls(json, toolUses);
        entry := entry.(toolCalls := calls);
      }
    } else {
      var content := BuildOpenAIUserContent(textBlocks);
      entry := entry.(content := content);
    }
    out := out + [entry];
  }

  method BuildOpenAIMessages(json: Json, msgs: seq<NormMessage>) returns (out: seq<Message>)
    ensures out == FlatMap(BuildMessages, json, msgs)
  {
    out := [];
    var i := 0;
    while i < |msgs|
      invariant 0 <= i <= |msgs|
      invariant out == FlatMap(BuildMessages, json, msgs[..i])
    {
      FlatMapStep(BuildMessages, json, msgs, i);
      var more := BuildOpenAIMessage(json, msgs[i]);
      out := out + more;
      i := i + 1;
    }
    assert msgs[..i] == msgs;
  }

  method BuildOpenAIRequest(json: Json, nr: NormRequest) returns (body: OpenAIRequest)
    ensures body == Built(json, nr)
  {
    var maxTokens: Option<int> := None;
    if nr.maxTokens > 0 {
      maxTokens := Some(nr.maxTokens);
    }
    var messages: seq<Message> := [];
    if |nr.system| > 0 {
      var text := JoinText(nr.system);
      messages := messages + [Message("system", Plain(text), [], "")];
    }
    assert messages == BuildSystem(nr.system);
    var more := BuildOpenAIMessages(json, nr.messages);
    messages := messages + more;
    if !SchemasMarshal(json.syntax, nr.tools) {
      return NO_BODY;
    }
    body := OpenAIRequest(nr.model, nr.stream, maxTokens, nr.temperature, nr.topP, BuildStop(nr.stop), messages,
                          BuildTools(json.syntax, nr.tools));
  }

  // ---- parse after build ----

  function Relayed(json: Json, nr: NormRequest): NormRequest {
    Parsed(json, Built(json, nr))
  }

  /** The roles a message keeps: a system message joins the system prompt, a tool message becomes a tool result. */
  predicate KeepsRole(m: NormMessage) {
    m.role != "system" && m.role != "tool"
  }

  function RelayPart(u: (), c: NormContent): seq<NormContent> {
    match c
    case Text(text) => [Text(text)]
    case Image(mediaType, data) => [ReadImage(DataURL(mediaType, data))]
    case _ => []
  }

  function RelayUse(json: Json, c: NormContent): seq<NormContent> {
    if c.ToolUse? then [ToolUse(c.id, c.name, EnsureJSONObject(json.syntax, c.input))] else []
  }

  function RelayResult(json: Json, c: NormContent): seq<NormMessage> {
    if c.ToolResult? then [NormMessage("user", [ToolResult(c.id, c.result, false)])] else []
  }

  /** The body of a message that keeps its role. */
  function RelayBody(json: Json, msg: NormMessage): NormMessage {
    var media := Filter(IsMedia, msg.content);
    if msg.role == "assistant" then
      NormMessage(msg.role, (if media == [] then [] else [Text(JoinedText(media))])
                            + FlatMap(RelayUse, json, Filter(IsUse, msg.content)))
    else NormMessage(msg.role, FlatMap(RelayPart, (), media))
  }

  /** What a message's own entry is read back as, by role. */
  function RelayEntry(json: Json, msg: NormMessage): seq<NormMessage> {
    if msg.role == "system" then []
    else if msg.role == "tool" then [NormMessage("user", [EntryResult(json, msg)])]
    else [RelayBody(json, msg)]
  }

  /** The tool result a tool message turns into: no id, and its content as gjson shows it. */
  function EntryResult(json: Json, msg: NormMessage): NormContent {
    ToolResult("", ContentString(json, BuildUserContent(Filter(IsMedia, msg.content))), false)
  }

  /** What a message adds to the system prompt. */
  function RelaySystem(json: Json, msg: NormMessage): seq<NormContent> {
    if msg.role == "system" then FlatMap(RelayPart, (), Filter(IsMedia, msg.content)) else []
  }

  /** One message, relayed: its tool results as messages of their own, then its entry, possibly empty. */
  function RelayMessage(json: Json, msg: NormMessage): seq<NormMessage> {
    FlatMap(RelayResult, json, Filter(IsResult, msg.content)) + RelayEntry(json, msg)
  }

  lemma {:induction false} PartsRoundTrip(media: seq<NormContent>)
    ensures FlatMap(ParsePart, (), FlatMap(BuildPart, (), media)) == FlatMap(RelayPart, (), media)
  {
    forall c ensures FlatMap(ParsePart, (), BuildPart((), c)) == RelayPart((), c) {
      if BuildPart((), c) != [] {
        FlatMapOne(ParsePart, (), BuildPart((), c)[0]);
      }
    }
    FlatMapFusion(BuildPart, ParsePart, RelayPart, (), media);
  }

  lemma UserContentRoundTrip(media: seq<NormContent>)
    ensures ParseContent(BuildUserContent(media)) == FlatMap(RelayPart, (), media)
  {
    if |media| == 1 {
      FlatMapOne(RelayPart, (), media[0]);
      assert media == [media[0]];
    }
    PartsRoundTrip(media);
  }

  lemma {:induction false} CallsRoundTrip(json: Json, uses: seq<NormContent>)
    ensures FlatMap(ParseCall, (), FlatMap(BuildCall, json, uses)) == FlatMap(RelayUse, json, uses)
  {
    if uses != [] {
      CallsRoundTrip(json, uses[1..]);
      FlatMapAppend(ParseCall, (), BuildCall(json, uses[0]), FlatMap(BuildCall, json, uses[1..]));
      if uses[0].ToolUse? {
        FlatMapOne(ParseCall, (), BuildCall(json, uses[0])[0]);
      }
    }
  }

  lemma EntryRoundTrip(json: Json, msg: NormMessage)
    ensures ParseMessage(json, BuildEntry(json, msg)) == RelayEntry(json, msg)
    ensures ParseSystem(json, BuildEntry(json, msg)) == RelaySystem(json, msg)
  {
    UserContentRoundTrip(Filter(IsMedia, msg.content));
    CallsRoundTrip(json, Filter(IsUse, msg.content));
    if msg.role != "assistant" {
      var content := FlatMap(RelayPart, (), Filter(IsMedia, msg.content));
      assert content + FlatMap(ParseCall, (), []) == content;
    }
  }

  lemma {:induction false} ResultsRoundTrip(json: Json, results: seq<NormContent>)
    ensures FlatMap(ParseMessage, json, FlatMap(BuildResult, json, results)) == FlatMap(RelayResult, json, results)
    ensures FlatMap(ParseSystem, json, FlatMap(BuildResult, json, results)) == []
  {
    if results != [] {
      ResultsRoundTrip(json, results[1..]);
      var first := BuildResult(json, results[0]);
      FlatMapAppend(ParseMessage, json, first, FlatMap(BuildResult, json, results[1..]));
      FlatMapAppend(ParseSystem, json, first, FlatMap(BuildResult, json, results[1..]));
      if first != [] {
        FlatMapOne(ParseMessage, json, first[0]);
        FlatMapOne(ParseSystem, json, first[0]);
        assert first == [first[0]];
      }
    }
  }

  lemma MessageRoundTrip(json: Json, msg: NormMessage)
    ensures FlatMap(ParseMessage, json, BuildMessages(json, msg)) == RelayMessage(json, msg)
    ensures FlatMap(ParseSystem, json, BuildMessages(json, msg)) == RelaySystem(json, msg)
  {
    var results := FlatMap(BuildResult, json, Filter(IsResult, msg.content));
    var entry := BuildEntry(json, msg);
    ResultsRoundTrip(json, Filter(IsResult, msg.content));
    EntryRoundTrip(json, msg);
    FlatMapAppend(ParseMessage, json, results, [entry]);
    FlatMapAppend(ParseSystem, json, results, [entry]);
    FlatMapOne(ParseMessage, json, entry);
    FlatMapOne(ParseSystem, json, entry);
  }

  lemma MessagesRoundTrip(json: Json, messages: seq<NormMessage>)
    ensures FlatMap(ParseMessage, json, FlatMap(BuildMessages, json, messages)) == FlatMap(RelayMessage, json, messages)
    ensures FlatMap(ParseSystem, json, FlatMap(BuildMessages, json, messages)) == FlatMap(RelaySystem, json, messages)
  {
    forall m
      ensures FlatMap(ParseMessage, json, BuildMessages(json, m)) == RelayMessage(json, m)
      ensures FlatMap(ParseSystem, json, BuildMessages(json, m)) == RelaySystem(json, m)
    {
      MessageRoundTrip(json, m);
    }
    FlatMapFusion(BuildMessages, ParseMessage, RelayMessage, json, messages);
    FlatMapFusion(BuildMessages, ParseSystem, RelaySystem, json, messages);
  }

  /** The system prompt the other side reads: the joined text of the old one, then what system messages add. */
  function RelayedSystem(json: Json, nr: NormRequest): seq<NormContent> {
    (if nr.system == [] then [] else [Text(JoinedText(nr.system))]) + FlatMap(RelaySystem, json, nr.messages)
  }

  /** What relaying does to a request: everything arrives, or nothing when a schema does not marshal. */
  lemma RelayedRequest(json: Json, nr: NormRequest)
    ensures
      var arrives := SchemasMarshal(json.syntax, nr.tools);
      && Relayed(json, nr).messages == (if arrives then FlatMap(RelayMessage, json, nr.messages) else [])
      && Relayed(json, nr).system == (if arrives then RelayedSystem(json, nr) else [])
      && Relayed(json, nr).stop == (if arrives then nr.stop else [])
  {
    if SchemasMarshal(json.syntax, nr.tools) {
      var head, tail := BuildSystem(nr.system), FlatMap(BuildMessages, json, nr.messages);
      MessagesRoundTrip(json, nr.messages);
      FlatMapAppend(ParseMessage, json, head, tail);
      FlatMapAppend(ParseSystem, json, head, tail);
      if head != [] {
        FlatMapOne(ParseMessage, json, head[0]);
        FlatMapOne(ParseSystem, json, head[0]);
        assert head == [head[0]];
      }
    }
  }

  // ---- what a relay keeps ----

  function ResultsOf(json: Json, m: NormMessage): seq<NormContent> {
    Filter(IsResult, m.content)
  }

  /** The tool uses the protocol can carry: only an assistant message has tool calls. */
  function UsesOf(json: Json, m: NormMessage): seq<NormContent> {
    if m.role == "assistant" then Filter(IsUse, m.content) else []
  }

  function RelayedResult(json: Json, c: NormContent): seq<NormContent> {
    if c.ToolResult? then [ToolResult(c.id, c.result, false)] else []
  }

  lemma {:induction false} ResultMessages(json: Json, results: seq<NormContent>)
    ensures FlatMap(ResultsOf, json, FlatMap(RelayResult, json, results)) == FlatMap(RelayedResult, json, results)
    ensures FlatMap(UsesOf, json, FlatMap(RelayResult, json, results)) == []
  {
    if results != [] {
      ResultMessages(json, results[1..]);
      var first, rest := RelayResult(json, results[0]), FlatMap(RelayResult, json, results[1..]);
      FlatMapAppend(ResultsOf, json, first, rest);
      FlatMapAppend(UsesOf, json, first, rest);
      if first != [] {
        FlatMapOne(ResultsOf, json, first[0]);
        FlatMapOne(UsesOf, json, first[0]);
        FilterAll(IsResult, first[0].content);
        assert first == [first[0]];
      }
    }
  }

  lemma BodyToolTraffic(json: Json, msg: NormMessage)
    ensures ResultsOf(json, RelayBody(json, msg)) == []
    ensures UsesOf(json, RelayBody(json, msg)) == FlatMap(RelayUse, json, UsesOf(json, msg))
  {
    var media := Filter(IsMedia, msg.content);
    if msg.role == "assistant" {
      var text := if media == [] then [] else [Text(JoinedText(media))];
      var uses := FlatMap(RelayUse, json, Filter(IsUse, msg.content));
      RelayedUsesAreUses(json, Filter(IsUse, msg.content));
      FilterAppend(IsUse, text, uses);
      FilterNone(IsUse, text);
      FilterAll(IsUse, uses);
      FilterNone(IsResult, text + uses);
    } else {
      RelayedPartsAreParts(media);
      FilterNone(IsResult, FlatMap(RelayPart, (), media));
      assert FlatMap(RelayUse, json, UsesOf(json, msg)) == [];
    }
  }

  /** The results an entry holds: a tool message's own. */
  function EntryResults(json: Json, msg: NormMessage): seq<NormContent> {
    if msg.role == "tool" then [EntryResult(json, msg)] else []
  }

  /** The tool results a message sends. */
  function SentResults(json: Json, msg: NormMessage): seq<NormContent> {
    FlatMap(RelayedResult, json, ResultsOf(json, msg)) + EntryResults(json, msg)
  }

  lemma EntryToolTraffic(json: Json, msg: NormMessage)
    ensures FlatMap(ResultsOf, json, RelayEntry(json, msg)) == EntryResults(json, msg)
    ensures FlatMap(UsesOf, json, RelayEntry(json, msg)) == FlatMap(RelayUse, json, UsesOf(json, msg))
  {
    if msg.role == "tool" {
      var m := RelayEntry(json, msg)[0];
      FlatMapOne(ResultsOf, json, m);
      FlatMapOne(UsesOf, json, m);
      FilterAll(IsResult, m.content);
    } else if msg.role != "system" {
      BodyToolTraffic(json, msg);
      FlatMapOne(ResultsOf, json, RelayBody(json, msg));
      FlatMapOne(UsesOf, json, RelayBody(json, msg));
    }
  }

  lemma MessageToolTraffic(json: Json, msg: NormMessage)
    ensures FlatMap(ResultsOf, json, RelayMessage(json, msg)) == SentResults(json, msg)
    ensures FlatMap(UsesOf, json, RelayMessage(json, msg)) == FlatMap(RelayUse, json, UsesOf(json, msg))
  {
    var results := FlatMap(RelayResult, json, Filter(IsResult, msg.content));
    ResultMessages(json, Filter(IsResult, msg.content));
    EntryToolTraffic(json, msg);
    FlatMapAppend(ResultsOf, json, results, RelayEntry(json, msg));
    FlatMapAppend(UsesOf, json, results, RelayEntry(json, msg));
  }

  /** Over a whole request, the tool results and the assistant's tool uses arrive as sent and in order. */
  lemma {:induction false} RelayKeepsToolTraffic(json: Json, messages: seq<NormMessage>)
    ensures
      var out := FlatMap(RelayMessage, json, messages);
      && FlatMap(ResultsOf, json, out) == FlatMap(SentResults, json, messages)
      && FlatMap(UsesOf, json, out) == FlatMap(RelayUse, json, FlatMap(UsesOf, json, messages))
  {
    if messages != [] {
      var first, rest := RelayMessage(json, messages[0]), FlatMap(RelayMessage, json, messages[1..]);
      RelayKeepsToolTraffic(json, messages[1..]);
      MessageToolTraffic(json, messages[0]);
      FlatMapAppend(ResultsOf, json, first, rest);
      FlatMapAppend(UsesOf, json, first, rest);
      FlatMapAppend(RelayUse, json, UsesOf(json, messages[0]), FlatMap(UsesOf, json, messages[1..]));
    }
  }

  // ---- idempotence, up to empty messages ----

  function StripOne(json: Json, m: NormMessage): seq<NormMessage> {
    if m.content == [] then [] else [m]
  }

  /** A request's messages without the empty ones. */
  function Strip(json: Json, messages: seq<NormMessage>): seq<NormMessage> {
    FlatMap(StripOne, json, messages)
  }

  function Stripped(json: Json, nr: NormRequest): NormRequest {
    nr.(messages := Strip(json, nr.messages))
  }

  function RelayStripped(json: Json, m: NormMessage): seq<NormMessage> {
    Strip(json, RelayMessage(json, m))
  }

  /** The messages whose images arrive as images of a message. */
  predicate CarriesImages(m: NormMessage) {
    m.role != "assistant" && KeepsRole(m)
  }

  /** Every such image has a media type that relaying does not change twice. */
  ghost predicate Settles(messages: seq<NormMessage>) {
    forall m, c :: m in messages && CarriesImages(m) && c in m.content && c.Image? ==> StableMediaType(c.mediaType)
  }

  predicate Unchanged(c: NormContent) {
    c.Image? ==> ReadImage(DataURL(c.mediaType, c.data)) == c
  }

  /** A message as one relay leaves it: one tool result, or an assistant's text and normalised tool uses, or
      another role's text and images. */
  ghost predicate Relayable(json: Json, m: NormMessage) {
    || (m.role == "user" && exists c: NormContent :: m.content == [c] && c.ToolResult? && !c.isError)
    || (m.role == "assistant" && exists text: seq<NormContent>, uses: seq<NormContent> ::
          m.content == text + uses && |text| <= 1 && (forall c :: c in text ==> c.Text?)
          && (forall c :: c in uses ==> c.ToolUse? && EnsureJSONObject(json.syntax, c.input) == c.input))
    || (m.role != "assistant" && KeepsRole(m) && forall c :: c in m.content ==> c.Text? || c.Image?)
  }

  lemma RelayedPartsAreParts(media: seq<NormContent>)
    ensures forall c :: c in FlatMap(RelayPart, (), media) ==> c.Text? || c.Image?
  {
    forall c | c in FlatMap(RelayPart, (), media) ensures c.Text? || c.Image? {
      FlatMapMember(RelayPart, (), media, c);
    }
  }

  lemma RelayedUsesAreUses(json: Json, uses: seq<NormContent>)
    ensures forall c :: c in FlatMap(RelayUse, json, uses) ==> c.ToolUse? && EnsureJSONObject(json.syntax, c.input) == c.input
  {
    forall c | c in FlatMap(RelayUse, json, uses)
      ensures c.ToolUse? && EnsureJSONObject(json.syntax, c.input) == c.input
    {
      FlatMapMember(RelayUse, json, uses, c);
      var u :| u in uses && c in RelayUse(json, u);
      EnsureIsIdempotent(json.syntax, u.input);
    }
  }

  lemma RelayedIsRelayable(json: Json, msg: NormMessage, m: NormMessage)
    requires m in RelayMessage(json, msg)
    ensures Relayable(json, m) && KeepsRole(m)
  {
    var results := Filter(IsResult, msg.content);
    if m in FlatMap(RelayResult, json, results) {
      FlatMapMember(RelayResult, json, results, m);
      var c :| c in results && m in RelayResult(json, c);
      assert m.content == [ToolResult(c.id, c.result, false)];
    } else {
      assert m in RelayEntry(json, msg);
      EntryIsRelayable(json, msg);
    }
  }

  lemma EntryIsRelayable(json: Json, msg: NormMessage)
    ensures forall m :: m in RelayEntry(json, msg) ==> Relayable(json, m) && KeepsRole(m)
  {
    if msg.role == "tool" {
      assert RelayEntry(json, msg)[0].content == [EntryResult(json, msg)];
    } else if msg.role != "system" {
      BodyIsRelayable(json, msg);
    }
  }

  lemma BodyIsRelayable(json: Json, msg: NormMessage)
    requires KeepsRole(msg)
    ensures Relayable(json, RelayBody(json, msg))
  {
    var media := Filter(IsMedia, msg.content);
    if msg.role == "assistant" {
      var text := if media == [] then [] else [Text(JoinedText(media))];
      RelayedUsesAreUses(json, Filter(IsUse, msg.content));
      assert RelayBody(json, msg).content == text + FlatMap(RelayUse, json, Filter(IsUse, msg.content));
    } else {
      RelayedPartsAreParts(media);
    }
  }

  lemma StripSingle(json: Json, m: NormMessage)
    ensures Strip(json, [m]) == StripOne(json, m)
  {
    FlatMapOne(StripOne, json, m);
  }

  lemma ResultAgain(json: Json, m: NormMessage, c: NormContent)
    requires m == NormMessage("user", [c]) && c.ToolResult? && !c.isError
    ensures RelayStripped(json, m) == [m]
  {
    FilterAll(IsResult, m.content);
    FilterNone(IsMedia, m.content);
    FlatMapOne(RelayResult, json, c);
    var empty := NormMessage("user", []);
    assert RelayMessage(json, m) == [m] + [empty];
    FlatMapAppend(StripOne, json, [m], [empty]);
    StripSingle(json, m);
    StripSingle(json, empty);
  }

  lemma {:induction false} UsesAgain(json: Json, uses: seq<NormContent>)
    requires forall c :: c in uses ==> c.ToolUse? && EnsureJSONObject(json.syntax, c.input) == c.input
    ensures FlatMap(RelayUse, json, uses) == uses
  {
    if uses != [] {
      UsesAgain(json, uses[1..]);
      assert uses[0] in uses;
    }
  }

  lemma AssistantAgain(json: Json, m: NormMessage, text: seq<NormContent>, uses: seq<NormContent>)
    requires m.role == "assistant" && m.content == text + uses && |text| <= 1
    requires forall c :: c in text ==> c.Text?
    requires forall c :: c in uses ==> c.ToolUse? && EnsureJSONObject(json.syntax, c.input) == c.input
    ensures RelayMessage(json, m) == [m]
  {
    FilterAppend(IsMedia, text, uses);
    FilterAppend(IsUse, text, uses);
    FilterAppend(IsResult, text, uses);
    FilterAll(IsMedia, text);
    FilterNone(IsMedia, uses);
    FilterAll(IsUse, uses);
    FilterNone(IsUse, text);
    FilterNone(IsResult, text);
    FilterNone(IsResult, uses);
    UsesAgain(json, uses);
    if text != [] {
      assert text[0] in text;
      assert text[1..] == [];
      assert JoinedText(text) == text[0].text + JoinedText([]) == text[0].text;
      assert text == [Text(JoinedText(text))];
    }
    assert Filter(IsMedia, m.content) == text && Filter(IsUse, m.content) == uses && Filter(IsResult, m.content) == [];
    assert RelayBody(json, m) == m;
  }

  lemma PartsAgain(content: seq<NormContent>)
    requires forall c :: c in content ==> c.Text? || c.Image?
    ensures |FlatMap(RelayPart, (), content)| == |content|
    ensures FlatMap(RelayPart, (), content) == content <==> forall c :: c in content ==> Unchanged(c)
  {
    var again := FlatMap(RelayPart, (), content);
    FlatMapPointwise(RelayPart, (), content);
    forall i | 0 <= i < |content| ensures again[i] == content[i] <==> Unchanged(content[i]) {
      assert content[i] in content;
    }
    if again == content {
      forall c | c in content ensures Unchanged(c) {
        var i :| 0 <= i < |content| && content[i] == c;
      }
    }
  }

  /** A second relay gives such a message back, save for unstable images. */
  lemma RelayAgain(json: Json, m: NormMessage)
    requires Relayable(json, m)
    ensures |RelayStripped(json, m)| == |StripOne(json, m)|
    ensures RelayStripped(json, m) == StripOne(json, m) <==>
              m.role == "assistant" || forall c :: c in m.content ==> Unchanged(c)
  {
    if m.role == "user" && exists c: NormContent :: m.content == [c] && c.ToolResult? && !c.isError {
      var c: NormContent :| m.content == [c] && c.ToolResult? && !c.isError;
      ResultAgain(json, m, c);
    } else if m.role == "assistant" {
      var text: seq<NormContent>, uses: seq<NormContent> :|
        m.content == text + uses && |text| <= 1 && (forall c :: c in text ==> c.Text?)
        && (forall c :: c in uses ==> c.ToolUse? && EnsureJSONObject(json.syntax, c.input) == c.input);
      AssistantAgain(json, m, text, uses);
      StripSingle(json, m);
    } else {
      FilterAll(IsMedia, m.content);
      FilterNone(IsResult, m.content);
      PartsAgain(m.content);
      assert RelayMessage(json, m) == [RelayBody(json, m)];
      StripSingle(json, RelayBody(json, m));
    }
  }

  /** Stripping after a second relay, message by message. */
  lemma {:induction false} StripRelayed(json: Json, messages: seq<NormMessage>)
    ensures Strip(json, FlatMap(RelayMessage, json, messages)) == FlatMap(RelayStripped, json, messages)
  {
    forall m ensures FlatMap(StripOne, json, RelayMessage(json, m)) == RelayStripped(json, m) {
    }
    FlatMapFusion(RelayMessage, StripOne, RelayStripped, json, messages);
  }

  /** The images one relay leaves, and those it started from. */
  lemma RelayedImages(json: Json, messages: seq<NormMessage>)
    ensures
      (forall m, c :: m in FlatMap(RelayMessage, json, messages) && m.role != "assistant" && c in m.content ==> Unchanged(c))
      <==> Settles(messages)
  {
    if Settles(messages) {
      forall m, c | m in FlatMap(RelayMessage, json, messages) && m.role != "assistant" && c in m.content
        ensures Unchanged(c)
      {
        FlatMapMember(RelayMessage, json, messages, m);
        var msg :| msg in messages && m in RelayMessage(json, msg);
        ImageComesFrom(json, msg, m, c);
      }
    } else {
      var msg, c :| msg in messages && CarriesImages(msg) && c in msg.content && c.Image?
                    && !StableMediaType(c.mediaType);
      UnstableImageArrives(json, messages, msg, c);
    }
  }

  lemma UnstableImageArrives(json: Json, messages: seq<NormMessage>, msg: NormMessage, c: NormContent)
    requires msg in messages && CarriesImages(msg) && c in msg.content && c.Image? && !StableMediaType(c.mediaType)
    ensures exists m, image :: m in FlatMap(RelayMessage, json, messages) && m.role != "assistant" &&
                               image in m.content && !Unchanged(image)
  {
    var m := RelayBody(json, msg);
    var image := ReadImage(DataURL(c.mediaType, c.data));
    assert c in Filter(IsMedia, msg.content) && image in RelayPart((), c);
    FlatMapMember(RelayPart, (), Filter(IsMedia, msg.content), image);
    ImageNormalises(c.mediaType, c.data);
    assert m in RelayEntry(json, msg);
    FlatMapMember(RelayMessage, json, messages, m);
    assert image in m.content && !Unchanged(image);
  }

  lemma ImageComesFrom(json: Json, msg: NormMessage, m: NormMessage, c: NormContent)
    requires Settles([msg]) && m in RelayMessage(json, msg) && m.role != "assistant" && c in m.content
    ensures Unchanged(c)
  {
    var results := Filter(IsResult, msg.content);
    if m in FlatMap(RelayResult, json, results) {
      FlatMapMember(RelayResult, json, results, m);
    } else if msg.role != "tool" {
      PartComesFrom(msg, c);
    }
  }

  lemma PartComesFrom(msg: NormMessage, c: NormContent)
    requires Settles([msg]) && CarriesImages(msg) && c in FlatMap(RelayPart, (), Filter(IsMedia, msg.content))
    ensures Unchanged(c)
  {
    FlatMapMember(RelayPart, (), Filter(IsMedia, msg.content), c);
    var from :| from in Filter(IsMedia, msg.content) && c in RelayPart((), from);
    assert msg in [msg] && from in msg.content;
    OnePart(from, c);
  }

  lemma OnePart(from: NormContent, c: NormContent)
    requires c in RelayPart((), from) && (from.Image? ==> StableMediaType(from.mediaType))
    ensures Unchanged(c)
  {
    if from.Image? {
      ImageNormalises(from.mediaType, from.data);
    }
  }

  /** The system prompt settles: it and the system messages together come to one text at most. */
  predicate SystemSettles(json: Json, nr: NormRequest) {
    var added := FlatMap(RelaySystem, json, nr.messages);
    if nr.system != [] then added == [] else added == [] || (|added| == 1 && added[0].Text?)
  }

  /** Parse after build is idempotent up to empty messages, exactly when the image media types settle and the system
      prompt does. A request whose tool schemas do not marshal is relayed as an empty body, once and for all. */
  lemma OpenAINormalises(json: Json, nr: NormRequest)
    requires Lawful(json.syntax)
    ensures
      (Stripped(json, Relayed(json, Relayed(json, nr))) == Stripped(json, Relayed(json, nr))) <==>
      (SchemasMarshal(json.syntax, nr.tools) ==> Settles(nr.messages) && SystemSettles(json, nr))
  {
    if SchemasMarshal(json.syntax, nr.tools) {
      MarshalledNormalises(json, nr);
    } else {
      assert Relayed(json, nr) == Parsed(json, NO_BODY);
      assert Relayed(json, nr).messages == [] && Relayed(json, nr).tools == [];
    }
  }

  /** A second relay of the messages changes nothing but images that do not settle. */
  lemma MessagesSettle(json: Json, messages: seq<NormMessage>)
    ensures
      var once := FlatMap(RelayMessage, json, messages);
      && (forall m :: m in once ==> KeepsRole(m))
      && (FlatMap(RelayStripped, json, once) == FlatMap(StripOne, json, once) <==> Settles(messages))
  {
    var once := FlatMap(RelayMessage, json, messages);
    forall m | m in once
      ensures KeepsRole(m) && |RelayStripped(json, m)| == |StripOne(json, m)|
      ensures RelayStripped(json, m) == StripOne(json, m) <==>
                m.role == "assistant" || forall c :: c in m.content ==> Unchanged(c)
    {
      FlatMapMember(RelayMessage, json, messages, m);
      var msg :| msg in messages && m in RelayMessage(json, msg);
      RelayedIsRelayable(json, msg, m);
      RelayAgain(json, m);
    }
    FlatMapSameShape(RelayStripped, StripOne, json, once);
    RelayedImages(json, messages);
  }

  lemma MarshalledNormalises(json: Json, nr: NormRequest)
    requires Lawful(json.syntax) && SchemasMarshal(json.syntax, nr.tools)
    ensures
      (Stripped(json, Relayed(json, Relayed(json, nr))) == Stripped(json, Relayed(json, nr))) <==>
      (Settles(nr.messages) && SystemSettles(json, nr))
  {
    ToolsNormalise(json.syntax, nr.tools);
    assert Relayed(json, nr).tools == RelayedTools(json.syntax, nr.tools);
    RelayedRequest(json, nr);
    MessagesSettle(json, nr.messages);
    RelayedRequest(json, Relayed(json, nr));
    StripRelayed(json, Relayed(json, nr).messages);
    SystemAgain(json, nr);
  }

  /** A second relay joins the system prompt's blocks into one text. */
  lemma SystemAgain(json: Json, nr: NormRequest)
    requires SchemasMarshal(json.syntax, nr.tools)
    ensures RelayedSystem(json, Relayed(json, nr)) == Relayed(json, nr).system <==> SystemSettles(json, nr)
  {
    RelayedRequest(json, nr);
    MessagesSettle(json, nr.messages);
    NoSystemMessages(json, Relayed(json, nr).messages);
    OneSystemText(json, nr);
    var system := RelayedSystem(json, nr);
    assert Relayed(json, nr).system == system;
    assert RelayedSystem(json, Relayed(json, nr)) == if system == [] then [] else [Text(JoinedText(system))];
    if system != [] {
      JoinedAgain(system);
    }
  }

  lemma OneSystemText(json: Json, nr: NormRequest)
    ensures
      var system := RelayedSystem(json, nr);
      SystemSettles(json, nr) <==> system == [] || (|system| == 1 && system[0].Text?)
  {
    var added := FlatMap(RelaySystem, json, nr.messages);
    if nr.system == [] {
      assert RelayedSystem(json, nr) == added;
    }
  }

  lemma {:induction false} NoSystemMessages(json: Json, messages: seq<NormMessage>)
    requires forall m :: m in messages ==> KeepsRole(m)
    ensures FlatMap(RelaySystem, json, messages) == []
  {
    if messages != [] {
      assert messages[0] in messages;
      NoSystemMessages(json, messages[1..]);
    }
  }

  /** Joining a prompt's blocks into one text changes nothing exactly when it was one text. */
  lemma JoinedAgain(system: seq<NormContent>)
    requires system != []
    ensures [Text(JoinedText(system))] == system <==> |system| == 1 && system[0].Text?
  {
    if |system| == 1 && system[0].Text? {
      assert system[1..] == [];
      assert JoinedText(system) == system[0].text + JoinedText([]) == system[0].text;
      assert system == [Text(system[0].text)];
    }
  }
}
