/** internal/translate/pairs.go, the request side: what a translated body says, told from the body it was made of. */
module Translation {
  import opened Wrappers
  import opened Strings
  import opened Lists
  import opened Norm
  import opened Turns
  import Anthropic
  import OpenAI
  import Codex
  import Streams

  datatype Wire =
    | A(a: Anthropic.AnthropicRequest)
    | O(o: OpenAI.OpenAIRequest)
    | C(c: Codex.CodexRequest)

  function Read(json: OpenAI.Json, w: Wire): NormRequest {
    match w
    case A(a) => Anthropic.Parsed(a)
    case O(o) => OpenAI.Parsed(json, o)
    case C(c) => Codex.Parsed(json.syntax, c)
  }

  function Written(json: OpenAI.Json, to: Streams.Protocol, nr: NormRequest): Wire {
    match to
    case AnthropicProtocol => A(Anthropic.Built(json.syntax, nr))
    case OpenAIProtocol => O(OpenAI.Built(json, nr))
    case CodexProtocol => C(Codex.Built(json.syntax, nr))
  }

  /** The request side of a registered pair. */
  function Translated(json: OpenAI.Json, to: Streams.Protocol, w: Wire): Wire {
    Written(json, to, Read(json, w))
  }

  method TranslateRequest(json: OpenAI.Json, to: Streams.Protocol, w: Wire) returns (out: Wire)
    ensures out == Translated(json, to, w)
  {
    var nr;
    match w {
      case A(a) => nr := Anthropic.ParseAnthropicRequest(a);
      case O(o) => nr := OpenAI.ParseOpenAIRequest(json, o);
      case C(c) => nr := Codex.ParseCodexRequest(json.syntax, c);
    }
    match to {
      case AnthropicProtocol =>
        var body := Anthropic.BuildAnthropicRequest(json.syntax, nr);
        out := A(body);
      case OpenAIProtocol =>
        var body := OpenAI.BuildOpenAIRequest(json, nr);
        out := O(body);
      case CodexProtocol =>
        var body := Codex.BuildCodexRequest(json.syntax, nr);
        out := C(body);
    }
  }

  // ---- what a body says ----

  function Said(json: OpenAI.Json, w: Wire): seq<Turn> {
    match w
    case A(a) => FlatMap(AnthropicTurn, (), a.messages)
    case O(o) => FlatMap(OpenAITurn, json, o.messages)
    case C(c) => FlatMap(CodexTurn, json.syntax, c.input)
  }

  function Heading(json: OpenAI.Json, w: Wire): seq<Piece> {
    match w
    case A(a) => AnthropicPieces(a.system)
    case O(o) => FlatMap(OpenAISystem, json, o.messages)
    case C(c) => if c.instructions == "" then [] else [Words(c.instructions)]
  }

  /** The texts among some pieces, joined. */
  function Text(pieces: seq<Piece>): string {
    if pieces == [] then ""
    else (if pieces[0].Picture? then "" else pieces[0].text) + Text(pieces[1..])
  }

  // ---- what each protocol makes of a turn ----

  /** Thoughts are spoken. */
  function Spoken(u: (), p: Piece): seq<Piece> {
    match p
    case Thought(text) => [Words(text)]
    case _ => [p]
  }

  /** Pictures go through a data URL. */
  function Posted(u: (), p: Piece): seq<Piece> {
    match p
    case Words(text) => [Words(text)]
    case Thought(text) => [Words(text)]
    case Picture(mediaType, data) =>
      var url := DataURL(mediaType, data);
      [Picture(DataURLMediaType(url), DataURLData(url))]
  }

  /** Thoughts are kept back. */
  function Unthought(u: (), p: Piece): seq<Piece> {
    if p.Thought? then [] else Posted((), p)
  }

  function Embeds(json: OpenAI.Json, u: Use): seq<Use> {
    [Use(u.id, u.name, Embedded(json.syntax, u.input))]
  }

  function Ensures(json: OpenAI.Json, u: Use): seq<Use> {
    [Use(u.id, u.name, EnsureJSONObject(json.syntax, u.input))]
  }

  function Unmarked(u: (), r: Outcome): seq<Outcome> {
    [Outcome(r.id, r.text, false)]
  }

  /** Anthropic keeps a turn in one message. */
  function InAnthropic(json: OpenAI.Json, t: Turn): seq<Turn> {
    [Turn(t.role, FlatMap(Spoken, (), t.pieces), FlatMap(Embeds, json, t.uses), t.results)]
  }

  function CodexCall(json: OpenAI.Json, u: Use): seq<Turn> {
    [Turn("assistant", [], Ensures(json, u), [])]
  }

  function CodexOutput(json: OpenAI.Json, r: Outcome): seq<Turn> {
    [Turn("user", [], [], Unmarked((), r))]
  }

  /** Codex takes a turn apart: what is said, each call, each result. */
  function InCodex(json: OpenAI.Json, t: Turn): seq<Turn> {
    (if t.pieces == [] then []
     else [Turn(if t.role == "" then "user" else t.role, FlatMap(Posted, (), t.pieces), [], [])])
    + FlatMap(CodexCall, json, t.uses) + FlatMap(CodexOutput, json, t.results)
  }

  /** What a message that is not the assistant's shows when read as a string. */
  function Shown(json: OpenAI.Json, pieces: seq<Piece>): string {
    if pieces == [] then ""
    else if |pieces| == 1 && pieces[0].Words? then pieces[0].text
    else json.show(FlatMap(PartOf, (), pieces))
  }

  function PartOf(u: (), p: Piece): seq<OpenAI.Part> {
    match p
    case Words(text) => [OpenAI.TextPart(text)]
    case Picture(mediaType, data) => [OpenAI.ImagePart(DataURL(mediaType, data))]
    case Thought(_) => []
  }

  /** The message that carries what is said: the assistant's in one text, with its calls; a system message is none of
      the conversation, and what a tool message says is a result. */
  function OpenAIEntry(json: OpenAI.Json, t: Turn): seq<Turn> {
    if t.role == "system" then []
    else if t.role == "tool" then [Turn("user", [], [], [Outcome("", Shown(json, t.pieces), false)])]
    else if t.role == "assistant" then
      [Turn("assistant", if t.pieces == [] then [] else [Words(Text(t.pieces))], FlatMap(Ensures, json, t.uses), [])]
    else [Turn(t.role, FlatMap(Unthought, (), t.pieces), [], [])]
  }

  /** OpenAI takes a turn apart: each result, then the message. */
  function InOpenAI(json: OpenAI.Json, t: Turn): seq<Turn> {
    FlatMap(CodexOutput, json, t.results) + OpenAIEntry(json, t)
  }

  function In(to: Streams.Protocol): (OpenAI.Json, Turn) -> seq<Turn> {
    match to
    case AnthropicProtocol => InAnthropic
    case OpenAIProtocol => InOpenAI
    case CodexProtocol => InCodex
  }

  /** All the raw JSON a body of this protocol would embed is JSON. */
  predicate Marshals(json: OpenAI.Json, to: Streams.Protocol, nr: NormRequest) {
    if to.AnthropicProtocol? then Anthropic.Marshals(json.syntax, nr) else SchemasMarshal(json.syntax, nr.tools)
  }

  // ---- pieces, calls and results of relayed messages ----

  lemma {:induction false} SpokenPieces(json: Syntax, cs: seq<NormContent>)
    ensures NormPieces(Anthropic.RebuiltContent(json, cs)) == FlatMap(Spoken, (), NormPieces(cs))
    ensures NormOutcomes(Anthropic.RebuiltContent(json, cs)) == NormOutcomes(cs)
  {
    if cs != [] {
      SpokenPieces(json, cs[1..]);
      var first := Anthropic.Rebuilt(json, cs[0]);
      assert Anthropic.RebuiltContent(json, cs) == [first] + Anthropic.RebuiltContent(json, cs[1..]);
      TurnAppend([first], Anthropic.RebuiltContent(json, cs[1..]));
      TurnOfOne(first);
      FlatMapAppend(Spoken, (), PieceOf((), cs[0]), NormPieces(cs[1..]));
      if PieceOf((), cs[0]) != [] {
        FlatMapOne(Spoken, (), PieceOf((), cs[0])[0]);
      }
    }
  }

  lemma {:induction false} EmbeddedUses(json: OpenAI.Json, cs: seq<NormContent>)
    ensures NormUses(Anthropic.RebuiltContent(json.syntax, cs)) == FlatMap(Embeds, json, NormUses(cs))
  {
    if cs != [] {
      EmbeddedUses(json, cs[1..]);
      var first := Anthropic.Rebuilt(json.syntax, cs[0]);
      assert Anthropic.RebuiltContent(json.syntax, cs) == [first] + Anthropic.RebuiltContent(json.syntax, cs[1..]);
      TurnAppend([first], Anthropic.RebuiltContent(json.syntax, cs[1..]));
      TurnOfOne(first);
      FlatMapAppend(Embeds, json, UseOf((), cs[0]), NormUses(cs[1..]));
      if UseOf((), cs[0]) != [] {
        FlatMapOne(Embeds, json, UseOf((), cs[0])[0]);
      }
    }
  }

  lemma {:induction false} RebuiltSays(json: OpenAI.Json, ms: seq<NormMessage>)
    ensures FlatMap(TurnOf, (), Anthropic.RebuiltMessages(json.syntax, ms)) ==
            FlatMap(InAnthropic, json, FlatMap(TurnOf, (), ms))
  {
    if ms != [] {
      RebuiltSays(json, ms[1..]);
      SpokenPieces(json.syntax, ms[0].content);
      EmbeddedUses(json, ms[0].content);
      var first := NormMessage(ms[0].role, Anthropic.RebuiltContent(json.syntax, ms[0].content));
      assert Anthropic.RebuiltMessages(json.syntax, ms) ==
             [first] + Anthropic.RebuiltMessages(json.syntax, ms[1..]);
      FlatMapAppend(TurnOf, (), [first], Anthropic.RebuiltMessages(json.syntax, ms[1..]));
      FlatMapOne(TurnOf, (), first);
      FlatMapAppend(InAnthropic, json, TurnOf((), ms[0]), FlatMap(TurnOf, (), ms[1..]));
      FlatMapOne(InAnthropic, json, NormTurn(ms[0]));
    }
  }

  // ---- Codex ----

  lemma PostedMediaFirst(c: NormContent, cs: seq<NormContent>)
    requires IsMedia(c)
    ensures
      var relayed := FlatMap(Codex.RelayMedia, "", Filter(IsMedia, cs));
      FlatMap(Codex.RelayMedia, "", Filter(IsMedia, [c] + cs)) == Codex.RelayMedia("", c) + relayed
    ensures NormPieces([c] + cs) == PieceOf((), c) + NormPieces(cs)
  {
    var rest := Filter(IsMedia, cs);
    assert ([c] + cs)[1..] == cs;
    assert Filter(IsMedia, [c] + cs) == [c] + rest;
    FlatMapAppend(Codex.RelayMedia, "", [c], rest);
    FlatMapOne(Codex.RelayMedia, "", c);
  }

  lemma {:induction false} PostedMedia(cs: seq<NormContent>)
    ensures
      var relayed := FlatMap(Codex.RelayMedia, "", Filter(IsMedia, cs));
      NormPieces(relayed) == FlatMap(Posted, (), NormPieces(cs)) && NormUses(relayed) == [] && NormOutcomes(relayed) == []
    ensures Filter(IsMedia, cs) == [] <==> NormPieces(cs) == []
  {
    if cs != [] {
      PostedMedia(cs[1..]);
      if IsMedia(cs[0]) {
        assert cs == [cs[0]] + cs[1..];
        PostedMediaFirst(cs[0], cs[1..]);
        PostedSays(cs[0], FlatMap(Codex.RelayMedia, "", Filter(IsMedia, cs[1..])), NormPieces(cs[1..]));
      } else {
        assert Filter(IsMedia, cs) == Filter(IsMedia, cs[1..]) && NormPieces(cs) == NormPieces(cs[1..]);
      }
    }
  }

  lemma PostedSays(c: NormContent, relayed: seq<NormContent>, pieces: seq<Piece>)
    requires IsMedia(c)
    ensures
      var first := Codex.RelayMedia("", c);
      && NormPieces(first + relayed) == Posted((), PieceOf((), c)[0]) + NormPieces(relayed)
      && NormUses(first + relayed) == NormUses(relayed) && NormOutcomes(first + relayed) == NormOutcomes(relayed)
    ensures FlatMap(Posted, (), PieceOf((), c) + pieces) == Posted((), PieceOf((), c)[0]) + FlatMap(Posted, (), pieces)
    ensures PieceOf((), c) + pieces != []
  {
    var first, p := Codex.RelayMedia("", c)[0], PieceOf((), c)[0];
    assert Codex.RelayMedia("", c) == [first] && PieceOf((), c) == [p];
    TurnAppend([first], relayed);
    TurnOfOne(first);
    FlatMapAppend(Posted, (), [p], pieces);
    FlatMapOne(Posted, (), p);
  }

  lemma {:induction false} CallsSay(json: OpenAI.Json, cs: seq<NormContent>)
    ensures FlatMap(TurnOf, (), FlatMap(Codex.RelayUse, json.syntax, Filter(IsUse, cs))) ==
            FlatMap(CodexCall, json, NormUses(cs))
  {
    if cs != [] {
      CallsSay(json, cs[1..]);
      if IsUse(cs[0]) {
        var rest := Filter(IsUse, cs[1..]);
        assert Filter(IsUse, cs) == [cs[0]] + rest;
        FlatMapAppend(Codex.RelayUse, json.syntax, [cs[0]], rest);
        FlatMapOne(Codex.RelayUse, json.syntax, cs[0]);
        var m := Codex.RelayUse(json.syntax, cs[0])[0];
        FlatMapAppend(TurnOf, (), [m], FlatMap(Codex.RelayUse, json.syntax, rest));
        FlatMapOne(TurnOf, (), m);
        TurnOfOne(m.content[0]);
        FlatMapAppend(CodexCall, json, UseOf((), cs[0]), NormUses(cs[1..]));
        FlatMapOne(CodexCall, json, UseOf((), cs[0])[0]);
      } else {
        assert Filter(IsUse, cs) == Filter(IsUse, cs[1..]) && NormUses(cs) == NormUses(cs[1..]);
      }
    }
  }

  lemma {:induction false} OutputsSay(json: OpenAI.Json, cs: seq<NormContent>)
    ensures FlatMap(TurnOf, (), FlatMap(Codex.RelayResult, json.syntax, Filter(IsResult, cs))) ==
            FlatMap(CodexOutput, json, NormOutcomes(cs))
  {
    if cs != [] {
      OutputsSay(json, cs[1..]);
      if IsResult(cs[0]) {
        var rest := Filter(IsResult, cs[1..]);
        assert Filter(IsResult, cs) == [cs[0]] + rest;
        FlatMapAppend(Codex.RelayResult, json.syntax, [cs[0]], rest);
        FlatMapOne(Codex.RelayResult, json.syntax, cs[0]);
        var m := Codex.RelayResult(json.syntax, cs[0])[0];
        FlatMapAppend(TurnOf, (), [m], FlatMap(Codex.RelayResult, json.syntax, rest));
        FlatMapOne(TurnOf, (), m);
        TurnOfOne(m.content[0]);
        FlatMapAppend(CodexOutput, json, OutcomeOf((), cs[0]), NormOutcomes(cs[1..]));
        FlatMapOne(CodexOutput, json, OutcomeOf((), cs[0])[0]);
      } else {
        assert Filter(IsResult, cs) == Filter(IsResult, cs[1..]) && NormOutcomes(cs) == NormOutcomes(cs[1..]);
      }
    }
  }

  lemma CodexMessageSays(json: OpenAI.Json, m: NormMessage)
    ensures FlatMap(TurnOf, (), Codex.RelayMessage(json.syntax, m)) == InCodex(json, NormTurn(m))
  {
    var media := Codex.RelayText(m);
    var calls := FlatMap(Codex.RelayUse, json.syntax, Filter(IsUse, m.content));
    var outputs := FlatMap(Codex.RelayResult, json.syntax, Filter(IsResult, m.content));
    PostedMedia(m.content);
    CallsSay(json, m.content);
    OutputsSay(json, m.content);
    FlatMapAppend(TurnOf, (), media + calls, outputs);
    FlatMapAppend(TurnOf, (), media, calls);
    if media != [] {
      FlatMapOne(TurnOf, (), media[0]);
    }
  }

  lemma {:induction false} CodexMessagesSay(json: OpenAI.Json, ms: seq<NormMessage>)
    ensures FlatMap(TurnOf, (), FlatMap(Codex.RelayMessage, json.syntax, ms)) ==
            FlatMap(InCodex, json, FlatMap(TurnOf, (), ms))
  {
    if ms != [] {
      CodexMessagesSay(json, ms[1..]);
      CodexMessageSays(json, ms[0]);
      FlatMapAppend(TurnOf, (), Codex.RelayMessage(json.syntax, ms[0]), FlatMap(Codex.RelayMessage, json.syntax, ms[1..]));
      FlatMapAppend(InCodex, json, TurnOf((), ms[0]), FlatMap(TurnOf, (), ms[1..]));
      FlatMapOne(InCodex, json, NormTurn(ms[0]));
    }
  }

  // ---- OpenAI ----

  lemma {:induction false} ResultsSay(json: OpenAI.Json, cs: seq<NormContent>)
    ensures FlatMap(TurnOf, (), FlatMap(OpenAI.RelayResult, json, Filter(IsResult, cs))) ==
            FlatMap(CodexOutput, json, NormOutcomes(cs))
  {
    if cs != [] {
      ResultsSay(json, cs[1..]);
      if IsResult(cs[0]) {
        var rest := Filter(IsResult, cs[1..]);
        assert Filter(IsResult, cs) == [cs[0]] + rest;
        FlatMapAppend(OpenAI.RelayResult, json, [cs[0]], rest);
        FlatMapOne(OpenAI.RelayResult, json, cs[0]);
        var m := OpenAI.RelayResult(json, cs[0])[0];
        FlatMapAppend(TurnOf, (), [m], FlatMap(OpenAI.RelayResult, json, rest));
        FlatMapOne(TurnOf, (), m);
        TurnOfOne(m.content[0]);
        FlatMapAppend(CodexOutput, json, OutcomeOf((), cs[0]), NormOutcomes(cs[1..]));
        FlatMapOne(CodexOutput, json, OutcomeOf((), cs[0])[0]);
      } else {
        assert Filter(IsResult, cs) == Filter(IsResult, cs[1..]) && NormOutcomes(cs) == NormOutcomes(cs[1..]);
      }
    }
  }

  lemma {:induction false} PartsSay(cs: seq<NormContent>)
    ensures FlatMap(OpenAI.BuildPart, (), Filter(IsMedia, cs)) == FlatMap(PartOf, (), NormPieces(cs))
    ensures JoinedText(Filter(IsMedia, cs)) == Text(NormPieces(cs))
    ensures |Filter(IsMedia, cs)| == |NormPieces(cs)|
    ensures |NormPieces(cs)| == 1 ==> NormPieces(cs) == PieceOf((), Filter(IsMedia, cs)[0])
  {
    if cs != [] {
      PartsSay(cs[1..]);
      if IsMedia(cs[0]) {
        var c, rest := cs[0], Filter(IsMedia, cs[1..]);
        assert Filter(IsMedia, cs) == [c] + rest;
        FlatMapAppend(OpenAI.BuildPart, (), [c], rest);
        FlatMapOne(OpenAI.BuildPart, (), c);
        JoinedTextAppend([c], rest);
        PieceSays(c, NormPieces(cs[1..]));
        assert [c][1..] == [];
      } else {
        assert Filter(IsMedia, cs) == Filter(IsMedia, cs[1..]) && NormPieces(cs) == NormPieces(cs[1..]);
      }
    }
  }

  lemma {:induction false} UserPartsSay(cs: seq<NormContent>)
    ensures
      var relayed := FlatMap(OpenAI.RelayPart, (), Filter(IsMedia, cs));
      && NormPieces(relayed) == FlatMap(Unthought, (), NormPieces(cs))
      && NormUses(relayed) == [] && NormOutcomes(relayed) == []
  {
    if cs != [] {
      UserPartsSay(cs[1..]);
      if IsMedia(cs[0]) {
        var c, rest := cs[0], Filter(IsMedia, cs[1..]);
        assert Filter(IsMedia, cs) == [c] + rest;
        FlatMapAppend(OpenAI.RelayPart, (), [c], rest);
        FlatMapOne(OpenAI.RelayPart, (), c);
        PieceSays(c, NormPieces(cs[1..]));
        UserPartSays(c, FlatMap(OpenAI.RelayPart, (), rest));
      } else {
        assert Filter(IsMedia, cs) == Filter(IsMedia, cs[1..]) && NormPieces(cs) == NormPieces(cs[1..]);
      }
    }
  }

  lemma UserPartSays(c: NormContent, rest: seq<NormContent>)
    requires IsMedia(c)
    ensures
      var first := OpenAI.RelayPart((), c);
      && NormPieces(first + rest) == Unthought((), PieceOf((), c)[0]) + NormPieces(rest)
      && NormUses(first + rest) == NormUses(rest) && NormOutcomes(first + rest) == NormOutcomes(rest)
  {
    var first := OpenAI.RelayPart((), c);
    TurnAppend(first, rest);
    if first != [] {
      TurnOfOne(first[0]);
      assert first == [first[0]];
    } else {
      assert [] + rest == rest;
    }
  }

  /** One more piece, in all its readings. */
  lemma PieceSays(c: NormContent, rest: seq<Piece>)
    requires IsMedia(c)
    ensures |PieceOf((), c)| == 1
    ensures FlatMap(Unthought, (), PieceOf((), c) + rest) == Unthought((), PieceOf((), c)[0]) + FlatMap(Unthought, (), rest)
    ensures FlatMap(PartOf, (), PieceOf((), c) + rest) == PartOf((), PieceOf((), c)[0]) + FlatMap(PartOf, (), rest)
    ensures Text(PieceOf((), c) + rest) == TextOf(c) + Text(rest)
  {
    var p := PieceOf((), c)[0];
    assert PieceOf((), c) == [p] && ([p] + rest)[1..] == rest;
    FlatMapAppend(Unthought, (), [p], rest);
    FlatMapOne(Unthought, (), p);
    FlatMapAppend(PartOf, (), [p], rest);
    FlatMapOne(PartOf, (), p);
  }

  lemma {:induction false} UsesSay(json: OpenAI.Json, cs: seq<NormContent>)
    ensures
      var relayed := FlatMap(OpenAI.RelayUse, json, Filter(IsUse, cs));
      NormUses(relayed) == FlatMap(Ensures, json, NormUses(cs)) && NormPieces(relayed) == [] && NormOutcomes(relayed) == []
  {
    if cs != [] {
      UsesSay(json, cs[1..]);
      if IsUse(cs[0]) {
        var rest := Filter(IsUse, cs[1..]);
        assert Filter(IsUse, cs) == [cs[0]] + rest;
        FlatMapAppend(OpenAI.RelayUse, json, [cs[0]], rest);
        FlatMapOne(OpenAI.RelayUse, json, cs[0]);
        var first := OpenAI.RelayUse(json, cs[0]);
        TurnAppend(first, FlatMap(OpenAI.RelayUse, json, rest));
        TurnOfOne(first[0]);
        assert first == [first[0]];
        FlatMapAppend(Ensures, json, UseOf((), cs[0]), NormUses(cs[1..]));
        FlatMapOne(Ensures, json, UseOf((), cs[0])[0]);
      } else {
        assert Filter(IsUse, cs) == Filter(IsUse, cs[1..]) && NormUses(cs) == NormUses(cs[1..]);
      }
    }
  }

  lemma ShownIs(json: OpenAI.Json, cs: seq<NormContent>)
    ensures OpenAI.ContentString(json, OpenAI.BuildUserContent(Filter(IsMedia, cs))) == Shown(json, NormPieces(cs))
  {
    PartsSay(cs);
  }

  lemma AssistantSays(json: OpenAI.Json, m: NormMessage)
    requires m.role == "assistant"
    ensures [NormTurn(OpenAI.RelayBody(json, m))] == OpenAIEntry(json, NormTurn(m))
  {
    PartsSay(m.content);
    UsesSay(json, m.content);
    var media := Filter(IsMedia, m.content);
    var text := if media == [] then [] else [NormContent.Text(JoinedText(media))];
    TurnAppend(text, FlatMap(OpenAI.RelayUse, json, Filter(IsUse, m.content)));
    TurnOfOne(NormContent.Text(JoinedText(media)));
    var uses := FlatMap(Ensures, json, NormUses(m.content));
    assert [] + uses == uses && NormPieces(text) + [] == NormPieces(text);
  }

  lemma EntrySays(json: OpenAI.Json, m: NormMessage)
    ensures FlatMap(TurnOf, (), OpenAI.RelayEntry(json, m)) == OpenAIEntry(json, NormTurn(m))
  {
    if m.role == "tool" {
      ShownIs(json, m.content);
      TurnOfOne(OpenAI.EntryResult(json, m));
      FlatMapOne(TurnOf, (), OpenAI.RelayEntry(json, m)[0]);
    } else if m.role != "system" {
      FlatMapOne(TurnOf, (), OpenAI.RelayBody(json, m));
      if m.role == "assistant" {
        AssistantSays(json, m);
      } else {
        UserPartsSay(m.content);
      }
    }
  }

  lemma {:induction false} OpenAIMessagesSay(json: OpenAI.Json, ms: seq<NormMessage>)
    ensures FlatMap(TurnOf, (), FlatMap(OpenAI.RelayMessage, json, ms)) ==
            FlatMap(InOpenAI, json, FlatMap(TurnOf, (), ms))
  {
    if ms != [] {
      OpenAIMessagesSay(json, ms[1..]);
      var m := ms[0];
      var results := FlatMap(OpenAI.RelayResult, json, Filter(IsResult, m.content));
      ResultsSay(json, m.content);
      EntrySays(json, m);
      FlatMapAppend(TurnOf, (), results, OpenAI.RelayEntry(json, m));
      FlatMapAppend(TurnOf, (), OpenAI.RelayMessage(json, m), FlatMap(OpenAI.RelayMessage, json, ms[1..]));
      FlatMapAppend(InOpenAI, json, TurnOf((), m), FlatMap(TurnOf, (), ms[1..]));
      FlatMapOne(InOpenAI, json, NormTurn(m));
    }
  }

  // ---- the translated body ----

  lemma ReadSays(json: OpenAI.Json, w: Wire)
    ensures FlatMap(TurnOf, (), Read(json, w).messages) == Said(json, w)
    ensures NormPieces(Read(json, w).system) == Heading(json, w)
  {
    match w
    case A(a) => AnthropicParses(a);
    case O(o) =>
      OpenAIParses(json, o);
      SameTurns(json, Read(json, w).messages);
    case C(c) =>
      CodexParses(json.syntax, c);
      SameTurns(json.syntax, Read(json, w).messages);
  }

  lemma {:induction false} SameTurns<E>(env: E, ms: seq<NormMessage>)
    ensures FlatMap(TurnOf, env, ms) == FlatMap(TurnOf, (), ms)
  {
    if ms != [] {
      SameTurns(env, ms[1..]);
    }
  }

  lemma WrittenSays(json: OpenAI.Json, to: Streams.Protocol, nr: NormRequest)
    requires Marshals(json, to, nr)
    ensures Said(json, Written(json, to, nr)) == FlatMap(In(to), json, FlatMap(TurnOf, (), nr.messages))
  {
    ReadSays(json, Written(json, to, nr));
    match to
    case AnthropicProtocol =>
      Anthropic.AnthropicRelay(json.syntax, nr);
      RebuiltSays(json, nr.messages);
    case OpenAIProtocol =>
      OpenAI.RelayedRequest(json, nr);
      OpenAIMessagesSay(json, nr.messages);
    case CodexProtocol =>
      Codex.RelayedMessages(json.syntax, nr);
      CodexMessagesSay(json, nr.messages);
  }

  /** Turn by turn, a translated body says what the body it was made of says, in the ways of its own protocol; only
      when some raw JSON does not marshal is nothing sent at all. */
  lemma TranslationKeepsTurns(json: OpenAI.Json, to: Streams.Protocol, w: Wire)
    ensures Said(json, Translated(json, to, w)) ==
            if Marshals(json, to, Read(json, w)) then FlatMap(In(to), json, Said(json, w)) else []
  {
    ReadSays(json, w);
    if Marshals(json, to, Read(json, w)) {
      WrittenSays(json, to, Read(json, w));
    }
  }

  // ---- the settings and the system prompt ----

  /** What a body asks for besides its turns; 0 is no token limit. */
  datatype Settings = Settings(
    model: string, stream: bool, maxTokens: int, temperature: Option<real>, topP: Option<real>, stop: seq<string>,
    tools: seq<WireTool>)

  function StopsOf(s: OpenAI.Stop): seq<string> {
    match s
    case NoStop => []
    case OneStop(x) => [x]
    case Stops(xs) => xs
  }

  function Limit(n: Option<int>): int {
    match n
    case Some(k) => k
    case None => 0
  }

  function SettingsOf(w: Wire): Settings {
    match w
    case A(a) => Settings(a.model, a.stream, Limit(a.maxTokens), a.temperature, a.topP, a.stopSequences, a.tools)
    case O(o) => Settings(o.model, o.stream, Limit(o.maxTokens), o.temperature, o.topP, StopsOf(o.stop), o.tools)
    case C(c) => Settings(c.model, c.stream, Limit(c.maxOutputTokens), c.temperature, c.topP, [], c.tools)
  }

  /** A tool with its schema as it is sent. */
  function SentTools(json: Syntax, tools: seq<WireTool>): (r: seq<WireTool>)
    ensures |r| == |tools|
  {
    seq(|tools|, i requires 0 <= i < |tools| =>
      WireTool(tools[i].name, tools[i].description, Embedded(json, tools[i].schema)))
  }

  /** The settings as another protocol can carry them: Anthropic must have a token limit, Codex has no stop list. */
  function Carried(json: Syntax, to: Streams.Protocol, s: Settings): Settings {
    s.(maxTokens := if s.maxTokens > 0 then s.maxTokens else if to.AnthropicProtocol? then 1024 else 0,
       stop := if to.CodexProtocol? then [] else s.stop,
       tools := SentTools(json, s.tools))
  }

  /** A translated body asks for the same model and settings. */
  lemma TranslationKeepsSettings(json: OpenAI.Json, to: Streams.Protocol, w: Wire)
    requires Marshals(json, to, Read(json, w))
    ensures SettingsOf(Translated(json, to, w)) == Carried(json.syntax, to, SettingsOf(w))
  {
    var nr, s := Read(json, w), SettingsOf(w);
    ReadSettings(json, w);
    assert BuildTools(json.syntax, nr.tools) == SentTools(json.syntax, s.tools);
    assert |nr.stop| == 1 ==> [nr.stop[0]] == nr.stop;
  }

  /** The normal form holds the settings. */
  lemma ReadSettings(json: OpenAI.Json, w: Wire)
    ensures
      var nr, s := Read(json, w), SettingsOf(w);
      && nr.model == s.model && nr.stream == s.stream && nr.maxTokens == s.maxTokens
      && nr.temperature == s.temperature && nr.topP == s.topP && nr.stop == s.stop
      && |nr.tools| == |s.tools|
      && forall i :: 0 <= i < |s.tools| ==>
           nr.tools[i] == NormTool(s.tools[i].name, s.tools[i].description, s.tools[i].schema)
  {
  }

  /** What system turns say, which to OpenAI is part of the system prompt. */
  function Asides(json: OpenAI.Json, t: Turn): seq<Piece> {
    if t.role == "system" then FlatMap(Unthought, (), t.pieces) else []
  }

  lemma {:induction false} SystemSays(json: OpenAI.Json, ms: seq<NormMessage>)
    ensures NormPieces(FlatMap(OpenAI.RelaySystem, json, ms)) == FlatMap(Asides, json, FlatMap(TurnOf, (), ms))
  {
    if ms != [] {
      SystemSays(json, ms[1..]);
      UserPartsSay(ms[0].content);
      TurnAppend(OpenAI.RelaySystem(json, ms[0]), FlatMap(OpenAI.RelaySystem, json, ms[1..]));
      FlatMapAppend(Asides, json, TurnOf((), ms[0]), FlatMap(TurnOf, (), ms[1..]));
      FlatMapOne(Asides, json, NormTurn(ms[0]));
    }
  }

  lemma {:induction false} JoinedIsText(cs: seq<NormContent>)
    ensures JoinedText(cs) == Text(NormPieces(cs))
  {
    if cs != [] {
      JoinedIsText(cs[1..]);
      if IsMedia(cs[0]) {
        PieceSays(cs[0], NormPieces(cs[1..]));
      } else {
        assert NormPieces(cs) == NormPieces(cs[1..]);
      }
    }
  }

  lemma {:induction false} TextAppend(a: seq<Piece>, b: seq<Piece>)
    ensures Text(a + b) == Text(a) + Text(b)
  {
    if a == [] {
      assert a + b == b;
    } else {
      TextAppend(a[1..], b);
      assert (a + b)[0] == a[0] && (a + b)[1..] == a[1..] + b;
      Regroup(if a[0].Picture? then "" else a[0].text, Text(a[1..]), Text(b));
    }
  }

  lemma {:induction false} SpokenText(pieces: seq<Piece>)
    ensures Text(FlatMap(Spoken, (), pieces)) == Text(pieces)
  {
    if pieces != [] {
      SpokenText(pieces[1..]);
      TextAppend(Spoken((), pieces[0]), FlatMap(Spoken, (), pieces[1..]));
      assert Spoken((), pieces[0])[1..] == [];
    }
  }

  /** A translated body heads with the text of the system prompt; to OpenAI, system turns are added to it. */
  lemma TranslationKeepsHeading(json: OpenAI.Json, to: Streams.Protocol, w: Wire)
    requires Marshals(json, to, Read(json, w))
    ensures
      Text(Heading(json, Translated(json, to, w))) ==
      Text(Heading(json, w)) + if to.OpenAIProtocol? then Text(FlatMap(Asides, json, Said(json, w))) else ""
  {
    var nr := Read(json, w);
    ReadSays(json, w);
    JoinedIsText(nr.system);
    match to
    case AnthropicProtocol => AnthropicHeading(json, nr);
    case OpenAIProtocol => OpenAIHeading(json, nr);
    case CodexProtocol => assert [Words(JoinedText(nr.system))][1..] == [];
  }

  lemma AnthropicHeading(json: OpenAI.Json, nr: NormRequest)
    requires Anthropic.Marshals(json.syntax, nr)
    ensures Text(Heading(json, A(Anthropic.Built(json.syntax, nr)))) == Text(NormPieces(nr.system))
  {
    ReadSays(json, A(Anthropic.Built(json.syntax, nr)));
    Anthropic.AnthropicRelay(json.syntax, nr);
    SpokenPieces(json.syntax, nr.system);
    SpokenText(NormPieces(nr.system));
  }

  lemma OpenAIHeading(json: OpenAI.Json, nr: NormRequest)
    requires SchemasMarshal(json.syntax, nr.tools)
    ensures Text(Heading(json, O(OpenAI.Built(json, nr)))) ==
            JoinedText(nr.system) + Text(FlatMap(Asides, json, FlatMap(TurnOf, (), nr.messages)))
  {
    ReadSays(json, O(OpenAI.Built(json, nr)));
    OpenAI.RelayedRequest(json, nr);
    SystemSays(json, nr.messages);
    var head := if nr.system == [] then [] else [NormContent.Text(JoinedText(nr.system))];
    var more := FlatMap(OpenAI.RelaySystem, json, nr.messages);
    TurnAppend(head, more);
    TextAppend(NormPieces(head), NormPieces(more));
    HeadText(nr.system);
  }

  lemma HeadText(system: seq<NormContent>)
    ensures
      var head := if system == [] then [] else [NormContent.Text(JoinedText(system))];
      Text(NormPieces(head)) == JoinedText(system)
  {
    TurnOfOne(NormContent.Text(JoinedText(system)));
    assert [Words(JoinedText(system))][1..] == [];
  }

  // ---- when a body marshals ----

  /** The raw JSON a translated body takes over is JSON: the schemas of its tools, and to Anthropic also what its calls
      are given. */
  predicate RawIsJSON(json: OpenAI.Json, to: Streams.Protocol, w: Wire) {
    && (forall t :: t in SettingsOf(w).tools ==> json.syntax.valid(JsonRaw(t.schema)))
    && (to.AnthropicProtocol? ==>
          forall t, u :: t in Said(json, w) && u in t.uses ==> json.syntax.valid(JsonRaw(u.input)))
  }

  lemma {:induction false} UsesMarshal(json: Syntax, cs: seq<NormContent>)
    ensures Anthropic.ContentMarshals(json, cs) <==> forall u :: u in NormUses(cs) ==> json.valid(JsonRaw(u.input))
  {
    if cs != [] {
      UsesMarshal(json, cs[1..]);
      assert cs == [cs[0]] + cs[1..];
      assert NormUses(cs) == UseOf((), cs[0]) + NormUses(cs[1..]);
      if cs[0].ToolUse? {
        assert NormUses(cs)[0].input == cs[0].input;
      }
    }
  }

  lemma MessagesMarshal(json: Syntax, ms: seq<NormMessage>)
    ensures (forall m :: m in ms ==> Anthropic.ContentMarshals(json, m.content)) <==>
            (forall t: Turn, u :: t in FlatMap(TurnOf, (), ms) && u in t.uses ==> json.valid(JsonRaw(u.input)))
  {
    forall m: NormMessage ensures Anthropic.ContentMarshals(json, m.content) <==>
                     forall u :: u in NormTurn(m).uses ==> json.valid(JsonRaw(u.input))
    {
      UsesMarshal(json, m.content);
    }
    forall t: Turn ensures t in FlatMap(TurnOf, (), ms) <==> exists m :: m in ms && t in TurnOf((), m) {
      FlatMapMember(TurnOf, (), ms, t);
    }
    if forall t: Turn, u :: t in FlatMap(TurnOf, (), ms) && u in t.uses ==> json.valid(JsonRaw(u.input)) {
      forall m | m in ms ensures Anthropic.ContentMarshals(json, m.content) {
        assert NormTurn(m) in TurnOf((), m);
      }
    }
  }

  lemma NoCallsInHeading(json: OpenAI.Json, w: Wire)
    requires !w.A?
    ensures NormUses(Read(json, w).system) == []
  {
    match w
    case O(o) => OpenAISystemUses(json, o.messages);
    case C(c) =>
      if c.instructions != "" {
        TurnOfOne(NormContent.Text(c.instructions));
      }
  }

  lemma {:induction false} OpenAISystemUses(json: OpenAI.Json, ms: seq<OpenAI.Message>)
    ensures NormUses(FlatMap(OpenAI.ParseSystem, json, ms)) == []
  {
    if ms != [] {
      OpenAISystemUses(json, ms[1..]);
      OpenAIContentParses(ms[0].content);
      TurnAppend(OpenAI.ParseSystem(json, ms[0]), FlatMap(OpenAI.ParseSystem, json, ms[1..]));
    }
  }

  /** For every registered pair: a translation sends something exactly when the raw JSON it takes over is JSON. Schemas
      and Anthropic inputs are raw JSON in the body to begin with; but the arguments of an OpenAI or Codex call are a
      string, and to Anthropic any that is neither blank nor JSON empties the whole body. */
  lemma MarshalsWhenJSON(json: OpenAI.Json, to: Streams.Protocol, w: Wire)
    requires !(w.A? && to.AnthropicProtocol?)
    ensures Marshals(json, to, Read(json, w)) <==> RawIsJSON(json, to, w)
  {
    var nr := Read(json, w);
    ReadSettings(json, w);
    SchemasAre(json, nr.tools, SettingsOf(w).tools);
    if to.AnthropicProtocol? {
      ReadSays(json, w);
      MessagesMarshal(json.syntax, nr.messages);
      NoCallsInHeading(json, w);
      UsesMarshal(json.syntax, nr.system);
    }
  }

  lemma SchemasAre(json: OpenAI.Json, ts: seq<NormTool>, ws: seq<WireTool>)
    requires |ts| == |ws| && forall i :: 0 <= i < |ws| ==> ts[i] == NormTool(ws[i].name, ws[i].description, ws[i].schema)
    ensures SchemasMarshal(json.syntax, ts) <==> forall t :: t in ws ==> json.syntax.valid(JsonRaw(t.schema))
  {
    if SchemasMarshal(json.syntax, ts) {
      forall t | t in ws ensures json.syntax.valid(JsonRaw(t.schema)) {
        var i :| 0 <= i < |ws| && ws[i] == t;
        assert ts[i] in ts;
      }
    }
    if forall t :: t in ws ==> json.syntax.valid(JsonRaw(t.schema)) {
      forall t | t in ts ensures json.syntax.valid(JsonRaw(t.schema)) {
        var i :| 0 <= i < |ts| && ts[i] == t;
        assert ws[i] in ws;
      }
    }
  }
}
