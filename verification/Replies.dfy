/** internal/translate/pairs.go, the response side: what a translated answer says, told from the answer itself. */
module Replies {
  import opened Wrappers
  import opened Strings
  import opened Lists
  import opened Norm
  import opened Turns
  import opened Responses
  import Anthropic
  import OpenAI
  import Streams
  import Translation

  datatype Reply =
    | A(a: AnthropicReply)
    | O(o: OpenAIReply)
    | C(c: CodexReply)

  function Read(json: OpenAI.Json, r: Reply): NormResponse {
    match r
    case A(a) => ParsedAnthropic(a)
    case O(o) => ParsedOpenAI(json, o)
    case C(c) => ParsedCodex(c)
  }

  function Written(json: OpenAI.Json, to: Streams.Protocol, nr: NormResponse): Reply {
    match to
    case AnthropicProtocol => A(BuiltAnthropic(json.syntax, nr))
    case OpenAIProtocol => O(BuiltOpenAI(json, nr))
    case CodexProtocol => C(BuiltCodex(json.syntax, nr))
  }

  /** The response side of a registered pair, to the client's protocol. */
  function Translated(json: OpenAI.Json, to: Streams.Protocol, r: Reply): Reply {
    Written(json, to, Read(json, r))
  }

  method TranslateResponse(json: OpenAI.Json, to: Streams.Protocol, r: Reply) returns (out: Reply)
    ensures out == Translated(json, to, r)
  {
    var nr;
    match r {
      case A(a) => nr := ParseAnthropicResponse(a);
      case O(o) => nr := ParseOpenAIResponse(json, o);
      case C(c) => nr := ParseCodexResponse(c);
    }
    match to {
      case AnthropicProtocol =>
        var body := BuildAnthropicResponse(json.syntax, nr);
        out := A(body);
      case OpenAIProtocol =>
        var body := BuildOpenAIResponse(json, nr);
        out := O(body);
      case CodexProtocol =>
        var body := BuildCodexResponse(json.syntax, nr);
        out := C(body);
    }
  }

  // ---- what a reader takes from an answer ----

  /** Why an answer ends: it is complete, it was cut off, it stopped at a stop sequence, or it calls tools. */
  datatype Ending = Complete | CutOff | AtSequence | CallsTools

  /** An answer: whose it is, its words, the tools it calls, its ending and its token counts. */
  datatype Answer = Answer(model: string, words: string, calls: seq<Use>, ending: Ending, tokens: Tokens)

  function AnthropicWords(blocks: seq<Anthropic.Block>): string {
    if blocks == [] then ""
    else (if blocks[0].TextBlock? then blocks[0].text else "") + AnthropicWords(blocks[1..])
  }

  function AnthropicEnding(reason: string): Ending {
    if reason == "max_tokens" then CutOff
    else if reason == "stop_sequence" then AtSequence
    else if reason == "tool_use" then CallsTools
    else Complete
  }

  function OpenAIEnding(reason: string): Ending {
    if reason == "length" then CutOff
    else if reason == "tool_calls" || reason == "function_call" then CallsTools
    else Complete
  }

  function BlocksWords(blocks: seq<OutputBlock>): string {
    if blocks == [] then ""
    else (if blocks[0].text.Some? then blocks[0].text.value else "") + BlocksWords(blocks[1..])
  }

  function OutputWords(output: seq<Output>): string {
    if output == [] then ""
    else (if output[0].MessageOutput? then BlocksWords(output[0].blocks) else "") + OutputWords(output[1..])
  }

  function OutputCalls(output: seq<Output>): seq<Use> {
    if output == [] then []
    else
      (if output[0].CallOutput? then [Use(output[0].id, output[0].name, output[0].arguments)] else [])
      + OutputCalls(output[1..])
  }

  function AnswerOf(json: OpenAI.Json, r: Reply): Answer {
    match r
    case A(a) =>
      Answer(a.model, AnthropicWords(BlocksOf(a.content)), FlatMap(AnthropicUse, (), BlocksOf(a.content)),
             AnthropicEnding(a.stopReason), UsageOr(a.usage))
    case O(o) =>
      Answer(o.model, OpenAI.ContentString(json, o.content), FlatMap(OpenAIUse, (), o.calls), OpenAIEnding(o.finishReason),
             if o.usage.Some? then Tokens(o.usage.value.prompt, o.usage.value.completion) else Tokens(0, 0))
    case C(c) =>
      Answer(c.model, OutputWords(c.output), OutputCalls(c.output), if c.status == "incomplete" then CutOff else Complete,
             UsageOr(c.usage))
  }

  /** The endings a protocol has a word for. */
  function Worded(to: Streams.Protocol, ending: Ending): Ending {
    match to
    case AnthropicProtocol => ending
    case OpenAIProtocol => if ending.AtSequence? then Complete else ending
    case CodexProtocol => if ending.CutOff? then CutOff else Complete
  }

  /** What a call's arguments become: to Anthropic they are embedded as JSON, to the others they are the text of an
      object. */
  function InputIn(json: OpenAI.Json, to: Streams.Protocol): string -> string {
    if to.AnthropicProtocol? then input => Embedded(json.syntax, input)
    else input => EnsureJSONObject(json.syntax, input)
  }

  function CallsBy(f: string -> string, calls: seq<Use>): seq<Use> {
    seq(|calls|, i requires 0 <= i < |calls| => calls[i].(input := f(calls[i].input)))
  }

  /** The same answer, in the ways of another protocol. */
  function Carried(json: OpenAI.Json, to: Streams.Protocol, x: Answer): Answer {
    x.(calls := CallsBy(InputIn(json, to), x.calls), ending := Worded(to, x.ending))
  }

  /** All arguments of the calls are JSON, or blank. */
  predicate CallsAreJSON(json: OpenAI.Json, calls: seq<Use>) {
    forall c :: c in calls ==> json.syntax.valid(JsonRaw(c.input))
  }

  // ---- the normal form says the same ----

  function NormEnding(reason: string): Ending {
    AnthropicEnding(reason)
  }

  function NormAnswer(nr: NormResponse): Answer {
    Answer(nr.model, TextIn(nr.content), NormUses(nr.content), NormEnding(nr.stopReason), nr.usage)
  }

  lemma {:induction false} BlocksRead(blocks: seq<Anthropic.Block>)
    ensures TextIn(FlatMap(Anthropic.ParseBlock, (), blocks)) == AnthropicWords(blocks)
  {
    if blocks != [] {
      BlocksRead(blocks[1..]);
      FlatMapAppend(WordsOf, (), Anthropic.ParseBlock((), blocks[0]), FlatMap(Anthropic.ParseBlock, (), blocks[1..]));
      BlockReads(blocks[0]);
    }
  }

  lemma BlockReads(b: Anthropic.Block)
    ensures TextIn(Anthropic.ParseBlock((), b)) == if b.TextBlock? then b.text else ""
  {
    var parsed := Anthropic.ParseBlock((), b);
    if parsed != [] {
      FlatMapOne(WordsOf, (), parsed[0]);
      assert parsed == [parsed[0]];
    }
  }

  lemma AnthropicReads(json: OpenAI.Json, a: AnthropicReply)
    ensures NormAnswer(ParsedAnthropic(a)) == AnswerOf(json, A(a))
  {
    ContentParses(a.content);
    PlainIsOneBlock(a.content);
    BlocksRead(BlocksOf(a.content));
  }

  /** Calls alone say no word. */
  lemma {:induction false} CallsRead(calls: seq<OpenAI.Call>)
    ensures
      var cs := FlatMap(OpenAI.ParseCall, (), calls);
      TextIn(cs) == "" && NormUses(cs) == FlatMap(OpenAIUse, (), calls)
  {
    if calls != [] {
      CallsRead(calls[1..]);
      var rest := FlatMap(OpenAI.ParseCall, (), calls[1..]);
      FlatMapAppend(WordsOf, (), OpenAI.ParseCall((), calls[0]), rest);
      FlatMapAppend(UseOf, (), OpenAI.ParseCall((), calls[0]), rest);
      FlatMapOne(WordsOf, (), OpenAI.ParseCall((), calls[0])[0]);
      FlatMapOne(UseOf, (), OpenAI.ParseCall((), calls[0])[0]);
    }
  }

  lemma TextReads(t: string)
    ensures TextIn([Text(t)]) == t && NormUses([Text(t)]) == []
  {
    FlatMapOne(WordsOf, (), Text(t));
    FlatMapOne(UseOf, (), Text(t));
  }

  lemma OpenAIReads(json: OpenAI.Json, o: OpenAIReply)
    ensures NormAnswer(ParsedOpenAI(json, o)) == AnswerOf(json, O(o))
  {
    var t := OpenAI.ContentString(json, o.content);
    var head, calls := if t != "" then [Text(t)] else [], FlatMap(OpenAI.ParseCall, (), o.calls);
    FlatMapAppend(WordsOf, (), head, calls);
    FlatMapAppend(UseOf, (), head, calls);
    TextReads(t);
    CallsRead(o.calls);
  }

  lemma {:induction false} OutputBlocksRead(blocks: seq<OutputBlock>)
    ensures
      var cs := FlatMap(ParseBlock, (), blocks);
      TextIn(cs) == BlocksWords(blocks) && NormUses(cs) == []
  {
    if blocks != [] {
      OutputBlocksRead(blocks[1..]);
      var first, rest := ParseBlock((), blocks[0]), FlatMap(ParseBlock, (), blocks[1..]);
      FlatMapAppend(WordsOf, (), first, rest);
      FlatMapAppend(UseOf, (), first, rest);
      if first != [] {
        TextReads(first[0].text);
        assert first == [first[0]];
      }
    }
  }

  lemma OutputRead(o: Output)
    ensures
      var cs := ParseOutput((), o);
      && TextIn(cs) == (if o.MessageOutput? then BlocksWords(o.blocks) else "")
      && NormUses(cs) == if o.CallOutput? then [Use(o.id, o.name, o.arguments)] else []
  {
    match o
    case MessageOutput(blocks) => OutputBlocksRead(blocks);
    case CallOutput(id, name, arguments) =>
      FlatMapOne(WordsOf, (), ToolUse(id, name, arguments));
      FlatMapOne(UseOf, (), ToolUse(id, name, arguments));
    case OtherOutput =>
  }

  lemma {:induction false} OutputsRead(output: seq<Output>)
    ensures
      var cs := FlatMap(ParseOutput, (), output);
      TextIn(cs) == OutputWords(output) && NormUses(cs) == OutputCalls(output)
  {
    if output != [] {
      OutputsRead(output[1..]);
      var rest := FlatMap(ParseOutput, (), output[1..]);
      FlatMapAppend(WordsOf, (), ParseOutput((), output[0]), rest);
      FlatMapAppend(UseOf, (), ParseOutput((), output[0]), rest);
      OutputRead(output[0]);
    }
  }

  /** Parsing keeps the answer. */
  lemma ReadAnswers(json: OpenAI.Json, r: Reply)
    ensures NormAnswer(Read(json, r)) == AnswerOf(json, r)
  {
    match r
    case A(a) => AnthropicReads(json, a);
    case O(o) => OpenAIReads(json, o);
    case C(c) => OutputsRead(c.output);
  }

  // ---- building keeps the answer ----

  predicate Thoughtless(cs: seq<NormContent>) {
    forall c :: c in cs ==> !c.Thinking?
  }

  lemma {:induction false} AnthropicWordsAre(json: Syntax, cs: seq<NormContent>)
    requires Thoughtless(cs)
    ensures AnthropicWords(FlatMap(Anthropic.BuildBlock, json, cs)) == TextIn(cs)
  {
    if cs != [] {
      AnthropicWordsAre(json, cs[1..]);
      var first, rest := Anthropic.BuildBlock(json, cs[0])[0], FlatMap(Anthropic.BuildBlock, json, cs[1..]);
      assert cs[0] in cs && Anthropic.BuildBlock(json, cs[0]) == [first];
      assert ([first] + rest)[1..] == rest;
    }
  }

  lemma {:induction false} AnthropicUsesAre(json: OpenAI.Json, cs: seq<NormContent>)
    ensures FlatMap(AnthropicUse, (), FlatMap(Anthropic.BuildBlock, json.syntax, cs)) ==
            FlatMap(Translation.Embeds, json, NormUses(cs))
  {
    if cs != [] {
      AnthropicUsesAre(json, cs[1..]);
      var first := Anthropic.BuildBlock(json.syntax, cs[0]);
      FlatMapAppend(AnthropicUse, (), first, FlatMap(Anthropic.BuildBlock, json.syntax, cs[1..]));
      FlatMapAppend(Translation.Embeds, json, UseOf((), cs[0]), NormUses(cs[1..]));
      OneUseIs(json, cs[0]);
    }
  }

  lemma OneUseIs(json: OpenAI.Json, c: NormContent)
    ensures FlatMap(AnthropicUse, (), Anthropic.BuildBlock(json.syntax, c)) ==
            FlatMap(Translation.Embeds, json, UseOf((), c))
  {
    var block := Anthropic.BuildBlock(json.syntax, c)[0];
    FlatMapOne(AnthropicUse, (), block);
    if c.ToolUse? {
      FlatMapOne(Translation.Embeds, json, UseOf((), c)[0]);
    }
  }

  /** The uses are those of the tool-use blocks, position by position. */
  lemma {:induction false} UsesOnly(cs: seq<NormContent>)
    ensures
      var us := Filter(IsUse, cs);
      && |NormUses(cs)| == |us|
      && forall i :: 0 <= i < |us| ==> us[i].ToolUse? && NormUses(cs)[i] == Use(us[i].id, us[i].name, us[i].input)
  {
    if cs != [] {
      UsesOnly(cs[1..]);
    }
  }

  lemma OpenAICallsSay(json: OpenAI.Json, cs: seq<NormContent>)
    ensures FlatMap(OpenAIUse, (), FlatMap(OpenAI.BuildCall, json, Filter(IsUse, cs))) ==
            CallsBy(InputIn(json, Streams.OpenAIProtocol), NormUses(cs))
  {
    var us := Filter(IsUse, cs);
    UsesOnly(cs);
    FlatMapPointwise(OpenAI.BuildCall, json, us);
    FlatMapPointwise(OpenAIUse, (), FlatMap(OpenAI.BuildCall, json, us));
  }

  lemma {:induction false} AllCalls(output: seq<Output>)
    requires forall o :: o in output ==> o.CallOutput?
    ensures OutputWords(output) == "" && |OutputCalls(output)| == |output|
    ensures forall i :: 0 <= i < |output| ==>
              OutputCalls(output)[i] == Use(output[i].id, output[i].name, output[i].arguments)
  {
    if output != [] {
      assert output[0] in output;
      AllCalls(output[1..]);
    }
  }

  lemma CodexCallsSay(json: OpenAI.Json, cs: seq<NormContent>)
    ensures
      var output := FlatMap(BuildOutput, json.syntax, Filter(IsUse, cs));
      && OutputWords(output) == ""
      && OutputCalls(output) == CallsBy(InputIn(json, Streams.CodexProtocol), NormUses(cs))
  {
    var us := Filter(IsUse, cs);
    UsesOnly(cs);
    FlatMapPointwise(BuildOutput, json.syntax, us);
    AllCalls(FlatMap(BuildOutput, json.syntax, us));
  }

  /** No text block, no words. */
  lemma {:induction false} NoTextNoWords(cs: seq<NormContent>)
    requires Filter(IsText, cs) == []
    ensures TextIn(cs) == ""
  {
    if cs != [] {
      NoTextNoWords(cs[1..]);
    }
  }

  lemma CodexSays(json: OpenAI.Json, nr: NormResponse)
    ensures
      var output := BuiltCodex(json.syntax, nr).output;
      && OutputWords(output) == TextIn(nr.content)
      && OutputCalls(output) == CallsBy(InputIn(json, Streams.CodexProtocol), NormUses(nr.content))
  {
    CodexCallsSay(json, nr.content);
    var calls := FlatMap(BuildOutput, json.syntax, Filter(IsUse, nr.content));
    if Filter(IsText, nr.content) == [] {
      NoTextNoWords(nr.content);
      assert [] + calls == calls;
    } else {
      var text := OutputBlock("output_text", Some(TextIn(nr.content)));
      assert ([MessageOutput([text])] + calls)[1..] == calls;
      assert BlocksWords([text]) == text.text.value + BlocksWords([text][1..]);
    }
  }

  lemma CallsEmbedded(json: OpenAI.Json, calls: seq<Use>)
    ensures FlatMap(Translation.Embeds, json, calls) == CallsBy(InputIn(json, Streams.AnthropicProtocol), calls)
  {
    FlatMapPointwise(Translation.Embeds, json, calls);
  }

  lemma EndingsAreWorded(reason: string)
    requires reason in ["end_turn", "max_tokens", "stop_sequence", "tool_use"]
    ensures AnthropicEnding(KnownReason(reason)) == NormEnding(reason)
    ensures OpenAIEnding(Streams.UnmapFinishReason(reason)) == Worded(Streams.OpenAIProtocol, NormEnding(reason))
    ensures (if UnmapStatus(reason) == "incomplete" then CutOff else Complete) ==
            Worded(Streams.CodexProtocol, NormEnding(reason))
  {
  }

  lemma AnthropicAnswers(json: OpenAI.Json, nr: NormResponse)
    requires Thoughtless(nr.content) && Anthropic.ContentMarshals(json.syntax, nr.content)
    requires nr.stopReason in ["end_turn", "max_tokens", "stop_sequence", "tool_use"]
    ensures AnswerOf(json, A(BuiltAnthropic(json.syntax, nr))) ==
            Carried(json, Streams.AnthropicProtocol, NormAnswer(nr))
  {
    CallsEmbedded(json, NormUses(nr.content));
    EndingsAreWorded(nr.stopReason);
    AnthropicWordsAre(json.syntax, nr.content);
    AnthropicUsesAre(json, nr.content);
  }

  lemma OpenAIAnswers(json: OpenAI.Json, nr: NormResponse)
    requires nr.stopReason in ["end_turn", "max_tokens", "stop_sequence", "tool_use"]
    ensures AnswerOf(json, O(BuiltOpenAI(json, nr))) == Carried(json, Streams.OpenAIProtocol, NormAnswer(nr))
  {
    EndingsAreWorded(nr.stopReason);
    OpenAICallsSay(json, nr.content);
    if Filter(IsText, nr.content) == [] {
      NoTextNoWords(nr.content);
    }
  }

  lemma CodexAnswers(json: OpenAI.Json, nr: NormResponse)
    requires nr.stopReason in ["end_turn", "max_tokens", "stop_sequence", "tool_use"]
    ensures AnswerOf(json, C(BuiltCodex(json.syntax, nr))) == Carried(json, Streams.CodexProtocol, NormAnswer(nr))
  {
    EndingsAreWorded(nr.stopReason);
    CodexSays(json, nr);
  }

  /** Building keeps the answer, in the ways of the protocol. */
  lemma WrittenAnswers(json: OpenAI.Json, to: Streams.Protocol, nr: NormResponse)
    requires to.AnthropicProtocol? ==> Thoughtless(nr.content) && Anthropic.ContentMarshals(json.syntax, nr.content)
    requires nr.stopReason in ["end_turn", "max_tokens", "stop_sequence", "tool_use"]
    ensures AnswerOf(json, Written(json, to, nr)) == Carried(json, to, NormAnswer(nr))
  {
    match to
    case AnthropicProtocol => AnthropicAnswers(json, nr);
    case OpenAIProtocol => OpenAIAnswers(json, nr);
    case CodexProtocol => CodexAnswers(json, nr);
  }

  // ---- the translation ----

  lemma {:induction false} CallsAreThoughtless(calls: seq<OpenAI.Call>)
    ensures Thoughtless(FlatMap(OpenAI.ParseCall, (), calls))
  {
    if calls != [] {
      CallsAreThoughtless(calls[1..]);
    }
  }

  lemma {:induction false} OutputIsThoughtless(output: seq<Output>)
    ensures Thoughtless(FlatMap(ParseOutput, (), output))
  {
    if output != [] {
      OutputIsThoughtless(output[1..]);
      if output[0].MessageOutput? {
        BlocksAreThoughtless(output[0].blocks);
      }
    }
  }

  lemma {:induction false} BlocksAreThoughtless(blocks: seq<OutputBlock>)
    ensures Thoughtless(FlatMap(ParseBlock, (), blocks))
  {
    if blocks != [] {
      BlocksAreThoughtless(blocks[1..]);
    }
  }

  lemma ReadIsThoughtless(json: OpenAI.Json, r: Reply)
    requires !r.A?
    ensures Thoughtless(Read(json, r).content)
  {
    match r
    case O(o) => CallsAreThoughtless(o.calls);
    case C(c) => OutputIsThoughtless(c.output);
  }

  /** A reply that arrives: to Anthropic, the arguments of all calls must be JSON. */
  predicate Arrives(json: OpenAI.Json, to: Streams.Protocol, r: Reply) {
    to.AnthropicProtocol? ==> CallsAreJSON(json, AnswerOf(json, r).calls)
  }

  /** For every registered pair and every reply: the translation gives the same answer, in the ways of the client's
      protocol; only when a call's arguments are neither blank nor JSON does a client of Anthropic's protocol get
      nothing. */
  lemma TranslationKeepsAnswer(json: OpenAI.Json, to: Streams.Protocol, r: Reply)
    requires !(r.A? && to.AnthropicProtocol?)
    ensures
      if Arrives(json, to, r) then AnswerOf(json, Translated(json, to, r)) == Carried(json, to, AnswerOf(json, r))
      else Translated(json, to, r) == A(NO_REPLY)
  {
    var nr := Read(json, r);
    ReadAnswers(json, r);
    if to.AnthropicProtocol? {
      ReadIsThoughtless(json, r);
      Translation.UsesMarshal(json.syntax, nr.content);
    }
    if Arrives(json, to, r) {
      WrittenAnswers(json, to, nr);
    }
  }

  /** To OpenAI the total is that of the counts. */
  lemma TotalIsSum(json: OpenAI.Json, r: Reply)
    ensures
      var usage := Translated(json, Streams.OpenAIProtocol, r).o.usage;
      && usage.Some? && usage.value.total == usage.value.prompt + usage.value.completion
      && Tokens(usage.value.prompt, usage.value.completion) == AnswerOf(json, r).tokens
  {
    ReadAnswers(json, r);
  }

  // ---- there and back ----

  function ProtocolOf(r: Reply): Streams.Protocol {
    match r
    case A(_) => Streams.AnthropicProtocol
    case O(_) => Streams.OpenAIProtocol
    case C(_) => Streams.CodexProtocol
  }

  /** Arguments that survive one change and then another, each of which may need them to be JSON. */
  predicate Survives(
      valid: string -> bool, f: string -> string, strict: bool, g: string -> string, strict': bool, input: string)
  {
    (strict ==> valid(input)) && (strict' ==> valid(f(input))) && g(f(input)) == input
  }

  predicate AllValid(valid: string -> bool, calls: seq<Use>) {
    forall i :: 0 <= i < |calls| ==> valid(calls[i].input)
  }

  lemma CallsSurvive(
      valid: string -> bool, f: string -> string, strict: bool, g: string -> string, strict': bool, calls: seq<Use>)
    ensures
      (&& (strict ==> AllValid(valid, calls))
       && (strict' ==> AllValid(valid, CallsBy(f, calls)))
       && CallsBy(g, CallsBy(f, calls)) == calls)
      <==> forall i :: 0 <= i < |calls| ==> Survives(valid, f, strict, g, strict', calls[i].input)
  {
    var once := CallsBy(f, calls);
    var twice := CallsBy(g, once);
    assert forall i :: 0 <= i < |calls| ==> once[i].input == f(calls[i].input);
    assert forall i :: 0 <= i < |calls| ==> twice[i] == calls[i].(input := g(f(calls[i].input)));
    if forall i :: 0 <= i < |calls| ==> Survives(valid, f, strict, g, strict', calls[i].input) {
      assert twice == calls;
    }
  }

  lemma AllJSON(json: OpenAI.Json, calls: seq<Use>)
    ensures CallsAreJSON(json, calls) <==> AllValid(input => json.syntax.valid(JsonRaw(input)), calls)
  {
  }

  /** A call's arguments survive the way to another protocol and back. */
  predicate ComesBack(json: OpenAI.Json, home: Streams.Protocol, away: Streams.Protocol, input: string) {
    Survives(s => json.syntax.valid(JsonRaw(s)), InputIn(json, away), away.AnthropicProtocol?, InputIn(json, home),
             home.AnthropicProtocol?, input)
  }

  /** The answer survives both ways, told from the answer alone. */
  ghost predicate Returns(json: OpenAI.Json, home: Streams.Protocol, away: Streams.Protocol, x: Answer) {
    var y := Carried(json, away, x);
    && (away.AnthropicProtocol? ==> CallsAreJSON(json, x.calls))
    && (home.AnthropicProtocol? ==> CallsAreJSON(json, y.calls))
    && Carried(json, home, y) == x
  }

  lemma ReturnsWhenAllSurvives(json: OpenAI.Json, home: Streams.Protocol, away: Streams.Protocol, x: Answer)
    ensures Returns(json, home, away, x) <==>
            && Worded(home, Worded(away, x.ending)) == x.ending
            && forall i :: 0 <= i < |x.calls| ==> ComesBack(json, home, away, x.calls[i].input)
  {
    var f, g := InputIn(json, away), InputIn(json, home);
    CallsSurvive(s => json.syntax.valid(JsonRaw(s)), f, away.AnthropicProtocol?, g, home.AnthropicProtocol?, x.calls);
    AllJSON(json, x.calls);
    AllJSON(json, CallsBy(f, x.calls));
  }

  /** A translated answer, translated back, is the answer it was exactly when its ending has a word in both protocols
      and the arguments of every call survive both ways. */
  lemma AnswerThereAndBack(json: OpenAI.Json, away: Streams.Protocol, r: Reply)
    requires away != ProtocolOf(r)
    ensures
      var x, home := AnswerOf(json, r), ProtocolOf(r);
      AnswerOf(json, Translated(json, home, Translated(json, away, r))) == x <==>
      && Worded(home, Worded(away, x.ending)) == x.ending
      && forall i :: 0 <= i < |x.calls| ==> ComesBack(json, home, away, x.calls[i].input)
  {
    ThereAndBackReturns(json, away, r);
    ReturnsWhenAllSurvives(json, ProtocolOf(r), away, AnswerOf(json, r));
  }

  /** A reply that did not marshal calls nothing, in any protocol. */
  lemma NothingCalled(json: OpenAI.Json, to: Streams.Protocol)
    requires !to.AnthropicProtocol?
    ensures AnswerOf(json, A(NO_REPLY)).calls == []
    ensures AnswerOf(json, Translated(json, to, A(NO_REPLY))).calls == []
  {
    TranslationKeepsAnswer(json, to, A(NO_REPLY));
  }

  lemma ThereAndBackReturns(json: OpenAI.Json, away: Streams.Protocol, r: Reply)
    requires away != ProtocolOf(r)
    ensures AnswerOf(json, Translated(json, ProtocolOf(r), Translated(json, away, r))) == AnswerOf(json, r) <==>
            Returns(json, ProtocolOf(r), away, AnswerOf(json, r))
  {
    var x, home := AnswerOf(json, r), ProtocolOf(r);
    var there := Translated(json, away, r);
    TranslationKeepsAnswer(json, away, r);
    if !Arrives(json, away, r) {
      NothingCalled(json, home);
    } else {
      TranslationKeepsAnswer(json, home, there);
      if !Arrives(json, home, there) {
        NothingCalled(json, away);
      }
    }
  }
}
