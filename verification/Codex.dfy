/** internal/translate/codex.go: the OpenAI Responses request codec. A wire body is the record of the fields
    the code looks up; a body that failed to marshal has none of them. */
module Codex {
  import opened Wrappers
  import opened Strings
  import opened Lists
  import opened Norm

  datatype CodexBlock =
    | CodexText(kind: string, text: string)  // input_text, output_text or text
    | CodexImage(url: string)                // input_image or image
    | OtherBlock

  datatype CodexItem =
    | MessageItem(role: string, content: Option<seq<CodexBlock>>)
    | FunctionCall(callId: string, name: string, arguments: string)
    | FunctionCallOutput(callId: string, output: string)
    | OtherItem

  datatype CodexRequest = CodexRequest(
    model: string,
    stream: bool,
    maxOutputTokens: Option<int>,
    temperature: Option<real>,
    topP: Option<real>,
    instructions: string,
    input: seq<CodexItem>,
    tools: seq<WireTool>)

  const NO_BODY := CodexRequest("", false, None, None, None, "", [], [])

  // ---- parse ----

  function ParseBlock(kind: string, b: CodexBlock): seq<NormContent> {
    match b
    case CodexText(_, text) => [Text(text)]
    case CodexImage(url) => [ReadImage(url)]
    case OtherBlock => []
  }

  function ParseContent(content: Option<seq<CodexBlock>>): seq<NormContent> {
    match content
    case None => []
    case Some(blocks) => FlatMap(ParseBlock, "", blocks)
  }

  function RoleOrUser(role: string): string {
    if role == "" then "user" else role
  }

  function ParseItem(json: Syntax, item: CodexItem): seq<NormMessage> {
    match item
    case MessageItem(role, content) => [NormMessage(RoleOrUser(role), ParseContent(content))]
    case FunctionCall(id, name, arguments) => [NormMessage("assistant", [ToolUse(id, name, arguments)])]
    case FunctionCallOutput(id, output) => [NormMessage("user", [ToolResult(id, output, false)])]
    case OtherItem => []
  }

  function Parsed(json: Syntax, body: CodexRequest): NormRequest {
    NormRequest(
      body.model,
      body.stream,
      if body.instructions != "" then [Text(body.instructions)] else [],
      FlatMap(ParseItem, json, body.input),
      ParseTools(body.tools),
      if body.maxOutputTokens.Some? then body.maxOutputTokens.value else 0,
      body.temperature,
      body.topP,
      [])
  }

  method ParseCodexContent(content: Option<seq<CodexBlock>>) returns (out: seq<NormContent>)
    ensures out == ParseContent(content)
  {
    out := [];
    if content.Some? {
      var i := 0;
      while i < |content.value|
        invariant 0 <= i <= |content.value|
        invariant out == FlatMap(ParseBlock, "", content.value[..i])
      {
        FlatMapStep(ParseBlock, "", content.value, i);
        match content.value[i] {
          case CodexText(_, text) => out := out + [Text(text)];
          case CodexImage(url) => out := out + [Image(DataURLMediaType(url), DataURLData(url))];
          case OtherBlock =>
        }
        i := i + 1;
      }
      assert content.value[..i] == content.value;
    }
  }

  method ParseCodexRequest(json: Syntax, body: CodexRequest) returns (nr: NormRequest)
    ensures nr == Parsed(json, body)
  {
    var maxTokens := 0;
    if body.maxOutputTokens.Some? {
      maxTokens := body.maxOutputTokens.value;
    }
    var system := [];
    if body.instructions != "" {
      system := [Text(body.instructions)];
    }
    var messages := [];
    var i := 0;
    while i < |body.input|
      invariant 0 <= i <= |body.input|
      invariant messages == FlatMap(ParseItem, json, body.input[..i])
    {
      FlatMapStep(ParseItem, json, body.input, i);
      match body.input[i] {
        case MessageItem(role, content) =>
          var who := role;
          if who == "" {
            who := "user";
          }
          var parsed := ParseCodexContent(content);
          messages := messages + [NormMessage(who, parsed)];
        case FunctionCall(id, name, arguments) =>
          messages := messages + [NormMessage("assistant", [ToolUse(id, name, arguments)])];
        case FunctionCallOutput(id, output) =>
          messages := messages + [NormMessage("user", [ToolResult(id, output, false)])];
        case OtherItem =>
      }
      i := i + 1;
    }
    assert body.input[..i] == body.input;
    nr := NormRequest(body.model, body.stream, system, messages, ParseTools(body.tools), maxTokens,
                      body.temperature, body.topP, []);
  }

  // ---- build ----

  function BuildBlock(kind: string, c: NormContent): seq<CodexBlock> {
    match c
    case Text(text) => [CodexText(kind, text)]
    case Thinking(text) => [CodexText(kind, text)]
    case Image(mediaType, data) => [CodexImage(DataURL(mediaType, data))]
    case _ => []
  }

  function TextKind(role: string): string {
    if role == "assistant" then "output_text" else "input_text"
  }

  function BuildMedia(role: string, media: seq<NormContent>): seq<CodexItem> {
    if media == [] then []
    else [MessageItem(RoleOrUser(role), Some(FlatMap(BuildBlock, TextKind(role), media)))]
  }

  function BuildCall(json: Syntax, c: NormContent): seq<CodexItem> {
    if c.ToolUse? then [FunctionCall(c.id, c.name, EnsureJSONObject(json, c.input))] else []
  }

  function BuildOutput(json: Syntax, c: NormContent): seq<CodexItem> {
    if c.ToolResult? then [FunctionCallOutput(c.id, c.result)] else []
  }

  function BuildItems(json: Syntax, msg: NormMessage): seq<CodexItem> {
    BuildMedia(msg.role, Filter(IsMedia, msg.content))
    + FlatMap(BuildCall, json, Filter(IsUse, msg.content))
    + FlatMap(BuildOutput, json, Filter(IsResult, msg.content))
  }

  function Built(json: Syntax, nr: NormRequest): CodexRequest {
    if !SchemasMarshal(json, nr.tools) then NO_BODY
    else
      CodexRequest(
        nr.model,
        nr.stream,
        if nr.maxTokens > 0 then Some(nr.maxTokens) else None,
        nr.temperature,
        nr.topP,
        JoinedText(nr.system),
        FlatMap(BuildItems, json, nr.messages),
        BuildTools(json, nr.tools))
  }

  /** The text blocks of a message are its role's kind. */
  predicate KindFits(item: CodexItem) {
    item.MessageItem? && item.content.Some? ==>
      forall b :: b in item.content.value && b.CodexText? ==>
        b.kind == if item.role == "assistant" then "output_text" else "input_text"
  }

  lemma {:induction false} BlocksFit(kind: string, media: seq<NormContent>)
    ensures forall b :: b in FlatMap(BuildBlock, kind, media) && b.CodexText? ==> b.kind == kind
  {
    if media != [] {
      BlocksFit(kind, media[1..]);
    }
  }

  lemma {:induction false} ItemsFit(json: Syntax, msgs: seq<NormMessage>)
    ensures forall item :: item in FlatMap(BuildItems, json, msgs) ==> KindFits(item)
  {
    if msgs != [] {
      ItemsFit(json, msgs[1..]);
      MessageFits(json, msgs[0]);
    }
  }

  lemma {:induction false} CallsAndOutputsFit(json: Syntax, cs: seq<NormContent>)
    ensures forall item :: item in FlatMap(BuildCall, json, cs) ==> KindFits(item)
    ensures forall item :: item in FlatMap(BuildOutput, json, cs) ==> KindFits(item)
  {
    if cs != [] {
      CallsAndOutputsFit(json, cs[1..]);
    }
  }

  lemma MessageFits(json: Syntax, msg: NormMessage)
    ensures forall item :: item in BuildItems(json, msg) ==> KindFits(item)
  {
    BlocksFit(TextKind(msg.role), Filter(IsMedia, msg.content));
    CallsAndOutputsFit(json, Filter(IsUse, msg.content));
    CallsAndOutputsFit(json, Filter(IsResult, msg.content));
  }

  /** Text goes out as output_text in the assistant's messages and as input_text in all others. */
  lemma KindsFollowRoles(json: Syntax, nr: NormRequest)
    ensures forall item :: item in Built(json, nr).input ==> KindFits(item)
  {
    ItemsFit(json, nr.messages);
  }

  method BuildCodexContent(role: string, textBlocks: seq<NormContent>) returns (content: seq<CodexBlock>)
    ensures content == FlatMap(BuildBlock, TextKind(role), textBlocks)
  {
    content := [];
    var textKind := "input_text";
    if role == "assistant" {
      textKind := "output_text";
    }
    var i := 0;
    while i < |textBlocks|
      invariant 0 <= i <= |textBlocks|
      invariant content == FlatMap(BuildBlock, textKind, textBlocks[..i])
    {
      FlatMapStep(BuildBlock, textKind, textBlocks, i);
      match textBlocks[i] {
        case Text(text) => content := content + [CodexText(textKind, text)];
        case Thinking(text) => content := content + [CodexText(textKind, text)];
        case Image(mediaType, data) => content := content + [CodexImage(DataURL(mediaType, data))];
        case _ =>
      }
      i := i + 1;
    }
    assert textBlocks[..i] == textBlocks;
  }

  method BuildCalls(json: Syntax, toolUses: seq<NormContent>) returns (items: seq<CodexItem>)
    requires forall c :: c in toolUses ==> IsUse(c)
    ensures items == FlatMap(BuildCall, json, toolUses)
  {
    items := [];
    var i := 0;
    while i < |toolUses|
      invariant 0 <= i <= |toolUses|
      invariant items == FlatMap(BuildCall, json, toolUses[..i])
    {
      FlatMapStep(BuildCall, json, toolUses, i);
      var tu := toolUses[i];
      assert tu in toolUses;
      items := items + [FunctionCall(tu.id, tu.name, EnsureJSONObject(json, tu.input))];
      i := i + 1;
    }
    assert toolUses[..i] == toolUses;
  }

  method BuildOutputs(json: Syntax, toolResults: seq<NormContent>) returns (items: seq<CodexItem>)
    requires forall c :: c in toolResults ==> IsResult(c)
    ensures items == FlatMap(BuildOutput, json, toolResults)
  {
    items := [];
    var i := 0;
    while i < |toolResults|
      invariant 0 <= i <= |toolResults|
      invariant items == FlatMap(BuildOutput, json, toolResults[..i])
    {
      FlatMapStep(BuildOutput, json, toolResults, i);
      var tr := toolResults[i];
      assert tr in toolResults;
      items := items + [FunctionCallOutput(tr.id, tr.result)];
      i := i + 1;
    }
    assert toolResults[..i] == toolResults;
  }

  method BuildCodexMessage(json: Syntax, msg: NormMessage) returns (items: seq<CodexItem>)
    ensures items == BuildItems(json, msg)
  {
    items := [];
    var textBlocks, toolResults, toolUses := SplitContent(msg.content);
    if |textBlocks| > 0 {
      var content := BuildCodexContent(msg.role, textBlocks);
      var role := msg.role;
      if role == "" {
        role := "user";
      }
      items := items + [MessageItem(role, Some(content))];
    }
    assert items == BuildMedia(msg.role, textBlocks);
    var calls := BuildCalls(json, toolUses);
    var outputs := BuildOutputs(json, toolResults);
    items := items + calls + outputs;
  }

  method BuildCodexRequest(json: Syntax, nr: NormRequest) returns (body: CodexRequest)
    ensures body == Built(json, nr)
  {
    var input := [];
    var i := 0;
    while i < |nr.messages|
      invariant 0 <= i <= |nr.messages|
      invariant input == FlatMap(BuildItems, json, nr.messages[..i])
    {
      FlatMapStep(BuildItems, json, nr.messages, i);
      var items := BuildCodexMessage(json, nr.messages[i]);
      input := input + items;
      i := i + 1;
    }
    assert nr.messages[..i] == nr.messages;
    if !SchemasMarshal(json, nr.tools) {
      return NO_BODY;
    }
    var maxTokens: Option<int> := None;
    if nr.maxTokens > 0 {
      maxTokens := Some(nr.maxTokens);
    }
    var instructions := "";
    if |nr.system| > 0 {
      instructions := JoinText(nr.system);
    }
    body := CodexRequest(nr.model, nr.stream, maxTokens, nr.temperature, nr.topP, instructions, input,
                         BuildTools(json, nr.tools));
  }

  // ---- parse after build ----

  /** The request the other side reads: build, then parse. */
  function Relayed(json: Syntax, nr: NormRequest): NormRequest {
    Parsed(json, Built(json, nr))
  }

  function RelayMedia(kind: string, c: NormContent): seq<NormContent> {
    match c
    case Text(text) => [Text(text)]
    case Thinking(text) => [Text(text)]
    case Image(mediaType, data) => [ReadImage(DataURL(mediaType, data))]
    case _ => []
  }

  function RelayUse(json: Syntax, c: NormContent): seq<NormMessage> {
    if c.ToolUse? then [NormMessage("assistant", [ToolUse(c.id, c.name, EnsureJSONObject(json, c.input))])] else []
  }

  function RelayResult(json: Syntax, c: NormContent): seq<NormMessage> {
    if c.ToolResult? then [NormMessage("user", [ToolResult(c.id, c.result, false)])] else []
  }

  function RelayText(msg: NormMessage): seq<NormMessage> {
    var media := Filter(IsMedia, msg.content);
    if media == [] then [] else [NormMessage(RoleOrUser(msg.role), FlatMap(RelayMedia, "", media))]
  }

  /** One message, relayed: its text and images, then each tool use, then each tool result. */
  function RelayMessage(json: Syntax, msg: NormMessage): seq<NormMessage> {
    RelayText(msg)
    + FlatMap(RelayUse, json, Filter(IsUse, msg.content))
    + FlatMap(RelayResult, json, Filter(IsResult, msg.content))
  }

  lemma MediaRoundTrip(kind: string, media: seq<NormContent>)
    ensures FlatMap(ParseBlock, "", FlatMap(BuildBlock, kind, media)) == FlatMap(RelayMedia, "", media)
  {
    if media != [] {
      MediaRoundTrip(kind, media[1..]);
      FlatMapAppend(ParseBlock, "", BuildBlock(kind, media[0]), FlatMap(BuildBlock, kind, media[1..]));
      if BuildBlock(kind, media[0]) != [] {
        FlatMapOne(ParseBlock, "", BuildBlock(kind, media[0])[0]);
        assert BuildBlock(kind, media[0]) == [BuildBlock(kind, media[0])[0]];
      }
    }
  }

  lemma MessageRoundTrip(json: Syntax, msg: NormMessage)
    ensures FlatMap(ParseItem, json, BuildItems(json, msg)) == RelayMessage(json, msg)
  {
    var media := BuildMedia(msg.role, Filter(IsMedia, msg.content));
    var calls := FlatMap(BuildCall, json, Filter(IsUse, msg.content));
    var outputs := FlatMap(BuildOutput, json, Filter(IsResult, msg.content));
    FlatMapAppend(ParseItem, json, media, calls);
    FlatMapAppend(ParseItem, json, media + calls, outputs);
    MediaItemRoundTrip(json, msg);
    CallsRoundTrip(json, Filter(IsUse, msg.content));
    OutputsRoundTrip(json, Filter(IsResult, msg.content));
  }

  lemma MediaItemRoundTrip(json: Syntax, msg: NormMessage)
    ensures FlatMap(ParseItem, json, BuildMedia(msg.role, Filter(IsMedia, msg.content))) == RelayText(msg)
  {
    var media := BuildMedia(msg.role, Filter(IsMedia, msg.content));
    MediaRoundTrip(TextKind(msg.role), Filter(IsMedia, msg.content));
    if media != [] {
      FlatMapOne(ParseItem, json, media[0]);
      assert media == [media[0]];
    }
  }

  lemma CallsRoundTrip(json: Syntax, uses: seq<NormContent>)
    ensures FlatMap(ParseItem, json, FlatMap(BuildCall, json, uses)) == FlatMap(RelayUse, json, uses)
  {
    forall c ensures FlatMap(ParseItem, json, BuildCall(json, c)) == RelayUse(json, c) {
      if c.ToolUse? {
        FlatMapOne(ParseItem, json, BuildCall(json, c)[0]);
      }
    }
    FlatMapFusion(BuildCall, ParseItem, RelayUse, json, uses);
  }

  lemma OutputsRoundTrip(json: Syntax, results: seq<NormContent>)
    ensures FlatMap(ParseItem, json, FlatMap(BuildOutput, json, results)) == FlatMap(RelayResult, json, results)
  {
    forall c ensures FlatMap(ParseItem, json, BuildOutput(json, c)) == RelayResult(json, c) {
      if c.ToolResult? {
        FlatMapOne(ParseItem, json, BuildOutput(json, c)[0]);
      }
    }
    FlatMapFusion(BuildOutput, ParseItem, RelayResult, json, results);
  }

  /** What relaying does to the messages: all of them arrive, or none when a schema does not marshal. */
  lemma RelayedMessages(json: Syntax, nr: NormRequest)
    ensures Relayed(json, nr).messages ==
            if SchemasMarshal(json, nr.tools) then FlatMap(RelayMessage, json, nr.messages) else []
  {
    forall msg ensures FlatMap(ParseItem, json, BuildItems(json, msg)) == RelayMessage(json, msg) {
      MessageRoundTrip(json, msg);
    }
    FlatMapFusion(BuildItems, ParseItem, RelayMessage, json, nr.messages);
  }

  // ---- what a relay keeps, and where it stops changing things ----

  function MediaOf(u: (), msg: NormMessage): seq<NormContent> {
    Filter(IsMedia, msg.content)
  }

  function UsesOf(u: (), msg: NormMessage): seq<NormContent> {
    Filter(IsUse, msg.content)
  }

  function ResultsOf(u: (), msg: NormMessage): seq<NormContent> {
    Filter(IsResult, msg.content)
  }

  function RelayedUse(json: Syntax, c: NormContent): seq<NormContent> {
    if c.ToolUse? then [ToolUse(c.id, c.name, EnsureJSONObject(json, c.input))] else []
  }

  function RelayedResult(json: Syntax, c: NormContent): seq<NormContent> {
    if c.ToolResult? then [ToolResult(c.id, c.result, false)] else []
  }

  lemma OneBlock(p: NormContent -> bool, c: NormContent)
    ensures Filter(p, [c]) == if p(c) then [c] else []
  {
    assert [c][1..] == [];
    assert Filter(p, [c]) == (if p(c) then [c] else []) + Filter(p, []);
  }

  /** A message of one block holds that block and nothing else. */
  lemma OneBlockMessage(role: string, c: NormContent)
    ensures
      var m := [NormMessage(role, [c])];
      && FlatMap(MediaOf, (), m) == (if IsMedia(c) then [c] else [])
      && FlatMap(UsesOf, (), m) == (if IsUse(c) then [c] else [])
      && FlatMap(ResultsOf, (), m) == (if IsResult(c) then [c] else [])
  {
    var m := NormMessage(role, [c]);
    FlatMapOne(MediaOf, (), m);
    FlatMapOne(UsesOf, (), m);
    FlatMapOne(ResultsOf, (), m);
    OneBlock(IsMedia, c);
    OneBlock(IsUse, c);
    OneBlock(IsResult, c);
  }

  lemma {:induction false} UsesBecomeMessages(json: Syntax, uses: seq<NormContent>)
    ensures
      var out := FlatMap(RelayUse, json, uses);
      && FlatMap(UsesOf, (), out) == FlatMap(RelayedUse, json, uses)
      && FlatMap(MediaOf, (), out) == [] && FlatMap(ResultsOf, (), out) == []
  {
    if uses != [] {
      UsesBecomeMessages(json, uses[1..]);
      if uses[0].ToolUse? {
        OneBlockMessage("assistant", RelayedUse(json, uses[0])[0]);
      }
      AppendTwo(RelayUse(json, uses[0]), FlatMap(RelayUse, json, uses[1..]));
    }
  }

  lemma {:induction false} ResultsBecomeMessages(json: Syntax, results: seq<NormContent>)
    ensures
      var out := FlatMap(RelayResult, json, results);
      && FlatMap(ResultsOf, (), out) == FlatMap(RelayedResult, json, results)
      && FlatMap(MediaOf, (), out) == [] && FlatMap(UsesOf, (), out) == []
  {
    if results != [] {
      ResultsBecomeMessages(json, results[1..]);
      if results[0].ToolResult? {
        OneBlockMessage("user", RelayedResult(json, results[0])[0]);
      }
      AppendTwo(RelayResult(json, results[0]), FlatMap(RelayResult, json, results[1..]));
    }
  }

  lemma AppendTwo(a: seq<NormMessage>, b: seq<NormMessage>)
    ensures FlatMap(MediaOf, (), a + b) == FlatMap(MediaOf, (), a) + FlatMap(MediaOf, (), b)
    ensures FlatMap(UsesOf, (), a + b) == FlatMap(UsesOf, (), a) + FlatMap(UsesOf, (), b)
    ensures FlatMap(ResultsOf, (), a + b) == FlatMap(ResultsOf, (), a) + FlatMap(ResultsOf, (), b)
  {
    FlatMapAppend(MediaOf, (), a, b);
    FlatMapAppend(UsesOf, (), a, b);
    FlatMapAppend(ResultsOf, (), a, b);
  }

  lemma RelayedMediaIsMedia(media: seq<NormContent>)
    ensures forall c :: c in FlatMap(RelayMedia, "", media) ==> IsMedia(c)
  {
    if media != [] {
      RelayedMediaIsMedia(media[1..]);
    }
  }

  /** Within one message nothing changes places: media, uses and results each keep their order. */
  lemma MessageKeepsOrder(json: Syntax, msg: NormMessage)
    ensures FlatMap(MediaOf, (), RelayMessage(json, msg)) == FlatMap(RelayMedia, "", MediaOf((), msg))
    ensures FlatMap(UsesOf, (), RelayMessage(json, msg)) == FlatMap(RelayedUse, json, UsesOf((), msg))
    ensures FlatMap(ResultsOf, (), RelayMessage(json, msg)) == FlatMap(RelayedResult, json, ResultsOf((), msg))
  {
    var text := RelayText(msg);
    var uses := FlatMap(RelayUse, json, UsesOf((), msg));
    var results := FlatMap(RelayResult, json, ResultsOf((), msg));
    UsesBecomeMessages(json, UsesOf((), msg));
    ResultsBecomeMessages(json, ResultsOf((), msg));
    TextBecomesOneMessage(msg);
    AppendTwo(text, uses);
    AppendTwo(text + uses, results);
  }

  lemma TextBecomesOneMessage(msg: NormMessage)
    ensures FlatMap(MediaOf, (), RelayText(msg)) == FlatMap(RelayMedia, "", MediaOf((), msg))
    ensures FlatMap(UsesOf, (), RelayText(msg)) == []
    ensures FlatMap(ResultsOf, (), RelayText(msg)) == []
  {
    var media := MediaOf((), msg);
    if media != [] {
      var out := FlatMap(RelayMedia, "", media);
      RelayedMediaIsMedia(media);
      FilterAll(IsMedia, out);
      FilterNone(IsUse, out);
      FilterNone(IsResult, out);
      var m := RelayText(msg)[0];
      FlatMapOne(MediaOf, (), m);
      FlatMapOne(UsesOf, (), m);
      FlatMapOne(ResultsOf, (), m);
    }
  }

  /** Over a whole request: the text and images, the tool uses and the tool results that arrive are those that
      were sent, in the order they were sent. */
  lemma {:induction false} RelayKeepsOrder(json: Syntax, messages: seq<NormMessage>)
    ensures
      var out := FlatMap(RelayMessage, json, messages);
      && FlatMap(MediaOf, (), out) == FlatMap(RelayMedia, "", FlatMap(MediaOf, (), messages))
      && FlatMap(UsesOf, (), out) == FlatMap(RelayedUse, json, FlatMap(UsesOf, (), messages))
      && FlatMap(ResultsOf, (), out) == FlatMap(RelayedResult, json, FlatMap(ResultsOf, (), messages))
  {
    if messages != [] {
      var first := RelayMessage(json, messages[0]);
      var rest := FlatMap(RelayMessage, json, messages[1..]);
      RelayKeepsOrder(json, messages[1..]);
      MessageKeepsOrder(json, messages[0]);
      AppendTwo(first, rest);
      FlatMapAppend(RelayMedia, "", MediaOf((), messages[0]), FlatMap(MediaOf, (), messages[1..]));
      FlatMapAppend(RelayedUse, json, UsesOf((), messages[0]), FlatMap(UsesOf, (), messages[1..]));
      FlatMapAppend(RelayedResult, json, ResultsOf((), messages[0]), FlatMap(ResultsOf, (), messages[1..]));
    }
  }

  // ---- idempotence ----

  predicate StableBlock(c: NormContent) {
    c.Image? ==> StableMediaType(c.mediaType)
  }

  /** Relaying settles after one pass: every image's media type is stable. */
  ghost predicate Settles(messages: seq<NormMessage>) {
    forall msg, c :: msg in messages && c in msg.content ==> StableBlock(c)
  }

  /** A message as one relay leaves it: text and images only, or one tool use, or one tool result. */
  ghost predicate Relayable(json: Syntax, m: NormMessage) {
    || (m.role != "" && m.content != [] && forall c :: c in m.content ==> c.Text? || c.Image?)
    || (m.role == "assistant" && exists c: NormContent ::
          m.content == [c] && c.ToolUse? && EnsureJSONObject(json, c.input) == c.input)
    || (m.role == "user" && exists c: NormContent :: m.content == [c] && c.ToolResult? && !c.isError)
  }

  lemma RelayMediaPointwise(media: seq<NormContent>)
    requires forall c :: c in media ==> IsMedia(c)
    ensures |FlatMap(RelayMedia, "", media)| == |media|
    ensures forall i :: 0 <= i < |media| ==>
              RelayMedia("", media[i]) == [FlatMap(RelayMedia, "", media)[i]]
              && (FlatMap(RelayMedia, "", media)[i].Text? || FlatMap(RelayMedia, "", media)[i].Image?)
  {
    FlatMapPointwise(RelayMedia, "", media);
  }

  lemma RelayedIsRelayable(json: Syntax, msg: NormMessage, m: NormMessage)
    requires m in RelayMessage(json, msg)
    ensures Relayable(json, m)
  {
    var uses, results := Filter(IsUse, msg.content), Filter(IsResult, msg.content);
    if m in RelayText(msg) {
      RelayMediaPointwise(Filter(IsMedia, msg.content));
    } else if m in FlatMap(RelayUse, json, uses) {
      FlatMapMember(RelayUse, json, uses, m);
      var c :| c in uses && m in RelayUse(json, c);
      EnsureIsIdempotent(json, c.input);
      assert m.content == [ToolUse(c.id, c.name, EnsureJSONObject(json, c.input))];
    } else {
      FlatMapMember(RelayResult, json, results, m);
      var c :| c in results && m in RelayResult(json, c);
      assert m.content == [ToolResult(c.id, c.result, false)];
    }
  }

  /** Relaying such a message again gives one message, which differs in its images at most. */
  lemma MediaAgain(json: Syntax, m: NormMessage)
    requires m.role != "" && m.content != [] && forall c :: c in m.content ==> c.Text? || c.Image?
    ensures RelayMessage(json, m) == [NormMessage(m.role, FlatMap(RelayMedia, "", m.content))]
  {
    FilterAll(IsMedia, m.content);
    FilterNone(IsUse, m.content);
    FilterNone(IsResult, m.content);
  }

  lemma MediaSame(content: seq<NormContent>)
    requires forall c :: c in content ==> IsMedia(c)
    ensures FlatMap(RelayMedia, "", content) == content <==> forall c :: c in content ==> RelayMedia("", c) == [c]
  {
    RelayMediaPointwise(content);
    var again := FlatMap(RelayMedia, "", content);
    if again == content {
      forall c | c in content ensures RelayMedia("", c) == [c] {
        var i :| 0 <= i < |content| && content[i] == c;
      }
    } else {
      var i :| 0 <= i < |content| && again[i] != content[i];
      assert content[i] in content;
    }
  }

  lemma ToolAgain(json: Syntax, m: NormMessage, c: NormContent)
    requires Relayable(json, m) && m.content == [c] && (c.ToolUse? || c.ToolResult?)
    ensures RelayMessage(json, m) == [m]
  {
    OneBlock(IsMedia, c);
    OneBlock(IsUse, c);
    OneBlock(IsResult, c);
    if c.ToolUse? {
      FlatMapOne(RelayUse, json, c);
      assert RelayMessage(json, m) == [] + RelayUse(json, c) + [];
    } else {
      FlatMapOne(RelayResult, json, c);
      assert RelayMessage(json, m) == [] + [] + RelayResult(json, c);
    }
  }

  lemma RelayAgain(json: Syntax, m: NormMessage)
    requires Relayable(json, m)
    ensures |RelayMessage(json, m)| == 1
    ensures RelayMessage(json, m)[0] == m <==> forall c :: c in m.content ==> RelayMedia("", c) == [c] || !IsMedia(c)
  {
    if m.role != "" && m.content != [] && forall c :: c in m.content ==> c.Text? || c.Image? {
      MediaAgain(json, m);
      MediaSame(m.content);
    } else {
      var c :| m.content == [c];
      ToolAgain(json, m, c);
    }
  }

  ghost predicate Unchanged(media: seq<NormContent>) {
    forall c :: c in media ==> RelayMedia("", c) == [c]
  }

  lemma InMedia(messages: seq<NormMessage>, c: NormContent)
    ensures c in FlatMap(MediaOf, (), messages) <==> IsMedia(c) && exists m :: m in messages && c in m.content
  {
    FlatMapMember(MediaOf, (), messages, c);
    if c in FlatMap(MediaOf, (), messages) {
      var m :| m in messages && c in MediaOf((), m);
      assert m in messages && c in m.content;
    }
    if m :| IsMedia(c) && m in messages && c in m.content {
      assert c in MediaOf((), m);
    }
  }

  /** One relay leaves media a second relay would not touch, exactly when every image is stable. */
  lemma RelayedMediaUnchanged(media: seq<NormContent>)
    requires forall c :: c in media ==> IsMedia(c)
    ensures Unchanged(FlatMap(RelayMedia, "", media)) <==> forall c :: c in media ==> StableBlock(c)
  {
    var once := FlatMap(RelayMedia, "", media);
    RelayMediaPointwise(media);
    forall i | 0 <= i < |media| ensures RelayMedia("", once[i]) == [once[i]] <==> StableBlock(media[i]) {
      if media[i].Image? {
        ImageNormalises(media[i].mediaType, media[i].data);
      }
    }
    if Unchanged(once) {
      forall c | c in media ensures StableBlock(c) {
        var i :| 0 <= i < |media| && media[i] == c;
        assert once[i] in once;
      }
    }
  }

  lemma SettlesByMedia(messages: seq<NormMessage>)
    ensures Settles(messages) <==> forall c :: c in FlatMap(MediaOf, (), messages) ==> StableBlock(c)
    ensures forall c :: c in FlatMap(MediaOf, (), messages) ==> IsMedia(c)
  {
    forall c ensures c in FlatMap(MediaOf, (), messages) <==> IsMedia(c) && exists m :: m in messages && c in m.content {
      InMedia(messages, c);
    }
  }

  lemma OnceIsRelayable(json: Syntax, messages: seq<NormMessage>, m: NormMessage)
    requires m in FlatMap(RelayMessage, json, messages)
    ensures Relayable(json, m) && |RelayMessage(json, m)| == 1
  {
    FlatMapMember(RelayMessage, json, messages, m);
    var msg :| msg in messages && m in RelayMessage(json, msg);
    RelayedIsRelayable(json, msg, m);
    RelayAgain(json, m);
  }

  /** Messages relayed twice. */
  lemma MessagesSettle(json: Syntax, messages: seq<NormMessage>)
    ensures
      var once := FlatMap(RelayMessage, json, messages);
      FlatMap(RelayMessage, json, once) == once <==> Settles(messages)
  {
    var once := FlatMap(RelayMessage, json, messages);
    forall m | m in once ensures Relayable(json, m) && |RelayMessage(json, m)| == 1 {
      OnceIsRelayable(json, messages, m);
    }
    FlatMapPointwise(RelayMessage, json, once);
    SecondRelay(json, once, FlatMap(RelayMessage, json, once));
    RelayKeepsOrder(json, messages);
    SettlesByMedia(messages);
    RelayedMediaUnchanged(FlatMap(MediaOf, (), messages));
  }

  lemma SecondRelay(json: Syntax, once: seq<NormMessage>, twice: seq<NormMessage>)
    requires |twice| == |once|
    requires forall i :: 0 <= i < |once| ==>
               Relayable(json, once[i]) && |RelayMessage(json, once[i])| == 1 && twice[i] == RelayMessage(json, once[i])[0]
    ensures twice == once <==> Unchanged(FlatMap(MediaOf, (), once))
  {
    forall c ensures c in FlatMap(MediaOf, (), once) <==> IsMedia(c) && exists m :: m in once && c in m.content {
      InMedia(once, c);
    }
    forall i | 0 <= i < |once|
      ensures twice[i] == once[i] <==> forall c :: c in once[i].content ==> RelayMedia("", c) == [c] || !IsMedia(c)
    {
      RelayAgain(json, once[i]);
    }
    if twice == once {
      forall c | c in FlatMap(MediaOf, (), once) ensures RelayMedia("", c) == [c] {
        var m :| m in once && c in m.content;
        var i :| 0 <= i < |once| && once[i] == m;
      }
    }
    if Unchanged(FlatMap(MediaOf, (), once)) {
      forall i | 0 <= i < |once| ensures twice[i] == once[i] {
        assert once[i] in once;
      }
    }
  }

  /** Parse after build is idempotent exactly when the media types of the images settle. A request whose tool
      schemas do not marshal is relayed as an empty body, once and for all. */
  lemma CodexNormalises(json: Syntax, nr: NormRequest)
    requires Lawful(json)
    ensures
      (Relayed(json, Relayed(json, nr)) == Relayed(json, nr)) <==>
      (SchemasMarshal(json, nr.tools) ==> Settles(nr.messages))
  {
    if SchemasMarshal(json, nr.tools) {
      MarshalledNormalises(json, nr);
    } else {
      assert Relayed(json, nr) == Parsed(json, NO_BODY);
      assert Relayed(json, nr).messages == [] && Relayed(json, nr).tools == [];
    }
  }

  lemma MarshalledNormalises(json: Syntax, nr: NormRequest)
    requires Lawful(json) && SchemasMarshal(json, nr.tools)
    ensures (Relayed(json, Relayed(json, nr)) == Relayed(json, nr)) <==> Settles(nr.messages)
  {
    ToolsNormalise(json, nr.tools);
    assert Relayed(json, nr).tools == RelayedTools(json, nr.tools);
    RelayedMessages(json, nr);
    RelayedMessages(json, Relayed(json, nr));
    MessagesSettle(json, nr.messages);
    InstructionsSettle(nr.system);
  }

  lemma InstructionsSettle(system: seq<NormContent>)
    ensures
      var text := JoinedText(system);
      JoinedText(if text != "" then [Text(text)] else []) == text
  {
    var text := JoinedText(system);
    assert [Text(text)][1..] == [];
    assert JoinedText([Text(text)]) == text + JoinedText([]);
  }
}
