/** internal/translate/norm.go and the helpers every request codec shares. */
module Norm {
  import opened Wrappers
  import opened Strings
  import opened Lists
  import Streams

  datatype NormContent =
    | Text(text: string)
    | Thinking(text: string)
    | Image(mediaType: string, data: string)
    | ToolUse(id: string, name: string, input: string)  // input: raw JSON text
    | ToolResult(id: string, result: string, isError: bool)

  datatype NormMessage = NormMessage(role: string, content: seq<NormContent>)

  datatype NormTool = NormTool(name: string, description: string, schema: string)  // schema: raw JSON text

  datatype NormRequest = NormRequest(
    model: string,
    stream: bool,
    system: seq<NormContent>,
    messages: seq<NormMessage>,
    tools: seq<NormTool>,
    maxTokens: int,
    temperature: Option<real>,
    topP: Option<real>,
    stop: seq<string>)

  /** A tool definition on the wire; all three protocols carry the same three fields. */
  datatype WireTool = WireTool(name: string, description: string, schema: string)

  /** gjson's syntax check, and what json.Marshal makes of raw JSON embedded in a message: the same value without
      insignificant white space and with <, > and & escaped. */
  datatype Syntax = Syntax(valid: string -> bool, compact: string -> string)

  /** What the codecs rely on: JSON text is not blank, and compacting it gives JSON text already compact. */
  ghost predicate Lawful(json: Syntax) {
    forall t :: CompactsTo(json, t, json.compact(t))
  }

  predicate CompactsTo(json: Syntax, t: string, c: string) {
    json.valid(t) ==> !Blank(t) && !Blank(c) && json.valid(c) && json.compact(c) == c
  }

  function EnsureJSONObject(json: Syntax, s: string): string {
    Streams.EnsureJSONObject(json.valid, s)
  }

  /** Tool arguments are normalised once and for all. */
  lemma EnsureIsIdempotent(json: Syntax, s: string)
    ensures EnsureJSONObject(json, EnsureJSONObject(json, s)) == EnsureJSONObject(json, s)
  {
    var t := EnsureJSONObject(json, s);
    TrimSpaceIdempotent(s);
    TrimSpaceBraces();
    EnsureByTrim(json, s);
    EnsureByTrim(json, t);
    ObjectOfObject(TrimSpace, json.valid, s);
  }

  /** Arguments that are a JSON object or array, blanks around them aside, are kept as they are; any others are dropped
      for an empty object. */
  lemma EnsureKeepsObjects(json: Syntax, a: string, t: string, b: string)
    requires forall c :: c in a || c in b ==> c in WHITE_SPACE
    requires t == "" || (t[0] !in WHITE_SPACE && t[|t| - 1] !in WHITE_SPACE)
    ensures EnsureJSONObject(json, a + t + b) ==
            if (HasPrefix(t, "{") || HasPrefix(t, "[")) && json.valid(t) then t else "{}"
  {
    TrimCutsEnds(a, t, b, WHITE_SPACE);
    EnsureByTrim(json, a + t + b);
  }

  function ObjectOr(valid: string -> bool, t: string): string {
    if t != "" && (t[0] == '{' || t[0] == '[') && valid(t) then t else "{}"
  }

  lemma EnsureByTrim(json: Syntax, s: string)
    ensures EnsureJSONObject(json, s) == ObjectOr(json.valid, TrimSpace(s))
  {
  }

  lemma ObjectOfObject(trim: string -> string, valid: string -> bool, s: string)
    requires trim(trim(s)) == trim(s) && trim("{}") == "{}"
    ensures
      var t := ObjectOr(valid, trim(s));
      ObjectOr(valid, trim(t)) == t
  {
  }

  /** What bytesTrim cuts off. */
  const JSON_SPACE := " \n\t\r"

  predicate Blank(raw: string) {
    Trim(raw, JSON_SPACE) == ""
  }

  /** jsonRaw: blank raw JSON becomes "{}". */
  function JsonRaw(raw: string): string {
    if Blank(raw) then "{}" else raw
  }

  lemma EmptyObjectIsNotBlank()
    ensures !Blank("{}")
  {
    TrimPair("{}", JSON_SPACE);
  }

  lemma JsonRawIsNeverBlank(raw: string)
    ensures !Blank(JsonRaw(raw))
    ensures JsonRaw(JsonRaw(raw)) == JsonRaw(raw)
    ensures JsonRaw(raw) == raw <==> !Blank(raw)
  {
    EmptyObjectIsNotBlank();
  }

  // ---- content kinds ----

  predicate IsMedia(c: NormContent) {
    !c.ToolUse? && !c.ToolResult?
  }

  predicate IsUse(c: NormContent) {
    c.ToolUse?
  }

  predicate IsResult(c: NormContent) {
    c.ToolResult?
  }

  /** splitContent: text and images, tool results, tool uses, each in order. */
  method SplitContent(cs: seq<NormContent>)
    returns (text: seq<NormContent>, results: seq<NormContent>, uses: seq<NormContent>)
    ensures text == Filter(IsMedia, cs)
    ensures results == Filter(IsResult, cs)
    ensures uses == Filter(IsUse, cs)
  {
    text, results, uses := [], [], [];
    var i := 0;
    while i < |cs|
      invariant 0 <= i <= |cs|
      invariant text == Filter(IsMedia, cs[..i])
      invariant results == Filter(IsResult, cs[..i])
      invariant uses == Filter(IsUse, cs[..i])
    {
      FilterStep(IsMedia, cs, i);
      FilterStep(IsResult, cs, i);
      FilterStep(IsUse, cs, i);
      match cs[i] {
        case ToolResult(_, _, _) => results := results + [cs[i]];
        case ToolUse(_, _, _) => uses := uses + [cs[i]];
        case _ => text := text + [cs[i]];
      }
      i := i + 1;
    }
    assert cs[..i] == cs;
  }

  function TextOf(c: NormContent): string {
    if c.Text? || c.Thinking? then c.text else ""
  }

  function JoinedText(cs: seq<NormContent>): string {
    if cs == [] then "" else TextOf(cs[0]) + JoinedText(cs[1..])
  }

  lemma {:induction false} JoinedTextAppend(a: seq<NormContent>, b: seq<NormContent>)
    ensures JoinedText(a + b) == JoinedText(a) + JoinedText(b)
  {
    if a == [] {
      assert a + b == b;
    } else {
      JoinedTextAppend(a[1..], b);
      assert (a + b)[0] == a[0] && (a + b)[1..] == a[1..] + b;
      Regroup(TextOf(a[0]), JoinedText(a[1..]), JoinedText(b));
    }
  }

  /** joinText, over a string builder. */
  method JoinText(cs: seq<NormContent>) returns (s: string)
    ensures s == JoinedText(cs)
  {
    s := "";
    var i := 0;
    while i < |cs|
      invariant 0 <= i <= |cs|
      invariant s == JoinedText(cs[..i])
    {
      assert cs[..i + 1] == cs[..i] + [cs[i]];
      JoinedTextAppend(cs[..i], [cs[i]]);
      if cs[i].Text? || cs[i].Thinking? {
        s := s + cs[i].text;
      }
      i := i + 1;
    }
    assert cs[..i] == cs;
  }

  // ---- data URLs (section 3 of RFC 2397) ----

  const MARKER := ";base64,"

  function DataURL(mediaType: string, data: string): string {
    "data:" + mediaType + MARKER + data
  }

  function DataURLData(url: string): string {
    var i := Index(url, ",");
    if i >= 0 then url[i + 1..] else url
  }

  function DataURLMediaType(url: string): string {
    if !HasPrefix(url, "data:") then ""
    else
      var rest := url[|"data:"|..];
      var i := Index(rest, MARKER);
      if i >= 0 then rest[..i]
      else
        var j := Index(rest, ",");
        if j >= 0 then rest[..j] else ""
  }

  /** The image a data URL is read back as. */
  function ReadImage(url: string): NormContent {
    Image(DataURLMediaType(url), DataURLData(url))
  }

  lemma CommaAt(s: string, i: int)
    ensures OccursAt(s, ",", i) <==> 0 <= i < |s| && s[i] == ','
  {
    if 0 <= i < |s| {
      assert s[i..i + 1] == [s[i]];
    }
  }

  /** Where the commas of a data URL are: those of the media type, then the marker's. */
  lemma CommasOfURL(mediaType: string, data: string)
    ensures Index(DataURL(mediaType, data), ",") == 5 + Index(mediaType + MARKER + data, ",")
    ensures DataURL(mediaType, data)[5..] == mediaType + MARKER + data
    ensures HasPrefix(DataURL(mediaType, data), "data:")
  {
    var url := DataURL(mediaType, data);
    var rest := mediaType + MARKER + data;
    assert url == "data:" + rest && url[5..] == rest && url[..5] == "data:";
    forall i ensures OccursAt(url, ",", i) <==> 5 <= i && OccursAt(rest, ",", i - 5) {
      CommaAt(url, i);
      CommaAt(rest, i - 5);
      assert 0 <= i < 5 ==> url[i] == "data:"[i] && "data:"[i] != ',';
    }
    CommaInRest(mediaType, data);
    assert OccursAt(url, ",", 5 + Index(rest, ","));
  }

  lemma CommaInRest(mediaType: string, data: string)
    ensures
      var i := Index(mediaType + MARKER + data, ",");
      if ',' in mediaType then 0 <= i < |mediaType| && mediaType[i] == ',' && ',' !in mediaType[..i]
      else i == |mediaType| + 7
  {
    var rest := mediaType + MARKER + data;
    assert |MARKER| == 8 && MARKER[7] == ',' && forall k :: 0 <= k < 7 ==> MARKER[k] != ',';
    forall i ensures OccursAt(rest, ",", i) <==> 0 <= i < |rest| && rest[i] == ',' {
      CommaAt(rest, i);
    }
    assert rest[|mediaType| + 7] == ',';
    assert forall k :: 0 <= k < |mediaType| ==> rest[k] == mediaType[k];
    assert forall k :: 0 <= k < 7 ==> rest[|mediaType| + k] == MARKER[k];
    if ',' in mediaType {
      var k :| 0 <= k < |mediaType| && mediaType[k] == ',';
      assert OccursAt(rest, ",", k);
    } else {
      assert OccursAt(rest, ",", |mediaType| + 7);
    }
  }

  /** Writing an image as a data URL and reading it back gives the same image exactly when its media type
      holds no comma. */
  lemma DataURLRoundTrip(mediaType: string, data: string)
    ensures DataURL(mediaType, data) == "data:" + mediaType + ";base64," + data
    ensures ReadImage("data:" + mediaType + ";base64," + data) == Image(mediaType, data) <==> ',' !in mediaType
  {
    if ',' in mediaType {
      CommaBreaks(mediaType, data);
    } else {
      NoCommaReadsBack(mediaType, data);
    }
  }

  lemma CommaBreaks(mediaType: string, data: string)
    requires ',' in mediaType
    ensures |DataURLData(DataURL(mediaType, data))| > |data|
  {
    CommasOfURL(mediaType, data);
    CommaInRest(mediaType, data);
  }

  lemma NoCommaReadsBack(mediaType: string, data: string)
    requires ',' !in mediaType
    ensures ReadImage(DataURL(mediaType, data)) == Image(mediaType, data)
  {
    CommasOfURL(mediaType, data);
    CommaInRest(mediaType, data);
    MarkerIsFound(mediaType, data);
    MarkerNeedsComma(mediaType + MARKER + data, |mediaType|);
    URLParts(mediaType, data);
  }

  lemma URLParts(mediaType: string, data: string)
    ensures DataURL(mediaType, data)[|mediaType| + 13..] == data
    ensures (mediaType + MARKER + data)[..|mediaType|] == mediaType
  {
    assert |MARKER| == 8 && |"data:"| == 5;
  }

  lemma MarkerIsFound(mediaType: string, data: string)
    ensures OccursAt(mediaType + MARKER + data, MARKER, |mediaType|)
    ensures 0 <= Index(mediaType + MARKER + data, MARKER) <= |mediaType|
  {
    var rest := mediaType + MARKER + data;
    assert |MARKER| == 8;
    assert rest[|mediaType|..|mediaType| + |MARKER|] == MARKER;
    assert OccursAt(rest, MARKER, |mediaType|);
  }

  /** No marker starts before `n` when no comma stands before position n + 7. */
  lemma MarkerNeedsComma(rest: string, n: nat)
    requires Index(rest, ",") == n + 7 && OccursAt(rest, MARKER, n)
    ensures Index(rest, MARKER) == n
  {
    var m := Index(rest, MARKER);
    assert |MARKER| == 8 && MARKER[7] == ',';
    assert rest[m..m + 8][7] == MARKER[7];
    CommaAt(rest, m + 7);
  }

  /** A media type that survives being relayed: comma-free, or cut by a marker of its own before its first comma. */
  predicate StableMediaType(mediaType: string) {
    var c := Index(mediaType, ",");
    c < 0 || HasSuffix(mediaType[..c], ";base64")
  }

  lemma HasComma(s: string)
    ensures Index(s, ",") >= 0 <==> ',' in s
    ensures Index(s, ",") >= 0 ==> s[Index(s, ",")] == ',' && ',' !in s[..Index(s, ",")]
  {
    forall i ensures OccursAt(s, ",", i) <==> 0 <= i < |s| && s[i] == ',' {
      CommaAt(s, i);
    }
    if ',' in s {
      var k :| 0 <= k < |s| && s[k] == ',';
      assert OccursAt(s, ",", k);
    }
  }

  /** A marker of the media type's own, ending at its first comma, is found at or before that comma. */
  lemma OwnMarker(mediaType: string, data: string, c: nat)
    requires c < |mediaType| && mediaType[c] == ',' && HasSuffix(mediaType[..c], ";base64")
    ensures 0 <= Index(mediaType + MARKER + data, MARKER) <= c
  {
    var rest := mediaType + MARKER + data;
    assert MARKER == ";base64" + "," && |";base64"| == 7;
    assert rest[c - 7..c] == mediaType[..c][c - 7..];
    assert rest[c - 7..c + 1] == rest[c - 7..c] + [rest[c]];
    assert OccursAt(rest, MARKER, c - 7);
  }

  /** A marker found at or before the first comma ends at it. */
  lemma MarkerEndsAtComma(s: string, m: nat, c: nat)
    requires m <= c < |s| && OccursAt(s, MARKER, m)
    requires s[c] == ',' && ',' !in s[..c]
    ensures c == m + 7 && HasSuffix(s[..c], ";base64")
  {
    var w := s[m..m + 8];
    assert w == MARKER == [';', 'b', 'a', 's', 'e', '6', '4', ','];
    assert s[m] == w[0] && s[m + 1] == w[1] && s[m + 2] == w[2] && s[m + 3] == w[3];
    assert s[m + 4] == w[4] && s[m + 5] == w[5] && s[m + 6] == w[6] && s[m + 7] == w[7];
    assert forall k :: 0 <= k < c ==> s[..c][k] == s[k];
    assert c == m + 7;
    assert s[..c][c - 7..] == w[..7] == ";base64";
  }

  /** The media type read back is comma-free exactly for the stable ones. */
  lemma StableReadsCommaFree(mediaType: string, data: string)
    ensures ',' !in DataURLMediaType(DataURL(mediaType, data)) <==> StableMediaType(mediaType)
  {
    CommasOfURL(mediaType, data);
    MarkerIsFound(mediaType, data);
    var rest := mediaType + MARKER + data;
    var m := Index(rest, MARKER);
    assert DataURLMediaType(DataURL(mediaType, data)) == rest[..m] == mediaType[..m];
    CommasBeforeMarker(mediaType, data, m);
  }

  lemma CommasBeforeMarker(mediaType: string, data: string, m: nat)
    requires m == Index(mediaType + MARKER + data, MARKER) && m <= |mediaType|
    ensures ',' !in mediaType[..m] <==> StableMediaType(mediaType)
  {
    var rest := mediaType + MARKER + data;
    HasComma(mediaType);
    var c := Index(mediaType, ",");
    if c >= 0 {
      if HasSuffix(mediaType[..c], ";base64") {
        OwnMarker(mediaType, data, c);
        assert mediaType[..m] == mediaType[..c][..m];
      } else if m <= c {
        assert rest[..c] == mediaType[..c];
        MarkerEndsAtComma(rest, m, c);
      } else {
        assert mediaType[..m][c] == ',';
      }
    }
  }

  /** Relaying an image a second time changes nothing exactly when its media type is stable. */
  lemma ImageNormalises(mediaType: string, data: string)
    ensures
      var once := ReadImage(DataURL(mediaType, data));
      ReadImage(DataURL(once.mediaType, once.data)) == once <==> StableMediaType(mediaType)
  {
    var once := ReadImage(DataURL(mediaType, data));
    DataURLRoundTrip(once.mediaType, once.data);
    StableReadsCommaFree(mediaType, data);
  }

  // ---- tools ----

  /** Raw JSON as it arrives after it was embedded and marshalled. */
  function Embedded(json: Syntax, raw: string): string {
    json.compact(JsonRaw(raw))
  }

  /** Raw JSON that arrives as it was sent. */
  predicate Compact(json: Syntax, raw: string) {
    !Blank(raw) && json.compact(raw) == raw
  }

  /** Embedding once is embedding for good; the text is the same afterwards exactly when it was compact. */
  lemma EmbeddedSettles(json: Syntax, raw: string)
    requires Lawful(json) && json.valid(JsonRaw(raw))
    ensures json.valid(JsonRaw(Embedded(json, raw)))
    ensures Embedded(json, Embedded(json, raw)) == Embedded(json, raw)
    ensures Embedded(json, raw) == raw <==> Compact(json, raw)
  {
    var once := Embedded(json, raw);
    assert CompactsTo(json, JsonRaw(raw), once);
    JsonRawIsNeverBlank(raw);
    JsonRawIsNeverBlank(once);
  }

  /** Two raw texts of one JSON value. */
  predicate SameValue(json: Syntax, a: string, b: string) {
    json.valid(a) && json.valid(b) && json.compact(a) == json.compact(b)
  }

  /** Embedding changes the value exactly when there was none. */
  lemma EmbeddedKeepsValue(json: Syntax, raw: string)
    requires Lawful(json) && json.valid(JsonRaw(raw))
    ensures SameValue(json, Embedded(json, raw), raw) <==> !Blank(raw)
  {
    assert CompactsTo(json, JsonRaw(raw), Embedded(json, raw));
    assert CompactsTo(json, raw, json.compact(raw));
    JsonRawIsNeverBlank(raw);
  }

  function BuildTool(json: Syntax, t: NormTool): WireTool {
    WireTool(t.name, t.description, Embedded(json, t.schema))
  }

  function ParseTool(t: WireTool): NormTool {
    NormTool(t.name, t.description, t.schema)
  }

  function BuildTools(json: Syntax, ts: seq<NormTool>): (r: seq<WireTool>)
    ensures |r| == |ts| && forall i :: 0 <= i < |ts| ==> r[i] == BuildTool(json, ts[i])
  {
    seq(|ts|, i requires 0 <= i < |ts| => BuildTool(json, ts[i]))
  }

  function ParseTools(ts: seq<WireTool>): (r: seq<NormTool>)
    ensures |r| == |ts| && forall i :: 0 <= i < |ts| ==> r[i] == ParseTool(ts[i])
  {
    seq(|ts|, i requires 0 <= i < |ts| => ParseTool(ts[i]))
  }

  /** The tools the other side reads. */
  function RelayedTools(json: Syntax, ts: seq<NormTool>): (r: seq<NormTool>)
    ensures |r| == |ts|
    ensures forall i :: 0 <= i < |ts| ==> r[i] == ts[i].(schema := Embedded(json, ts[i].schema))
  {
    ParseTools(BuildTools(json, ts))
  }

  /** Tools marshal again after a relay, a second relay changes nothing, and the first changes nothing exactly when
      every schema was compact JSON. */
  lemma ToolsNormalise(json: Syntax, ts: seq<NormTool>)
    requires Lawful(json) && SchemasMarshal(json, ts)
    ensures SchemasMarshal(json, RelayedTools(json, ts))
    ensures RelayedTools(json, RelayedTools(json, ts)) == RelayedTools(json, ts)
    ensures RelayedTools(json, ts) == ts <==> forall t :: t in ts ==> Compact(json, t.schema)
  {
    var once := RelayedTools(json, ts);
    forall i | 0 <= i < |ts|
      ensures json.valid(JsonRaw(once[i].schema)) && Embedded(json, once[i].schema) == once[i].schema
      ensures once[i] == ts[i] <==> Compact(json, ts[i].schema)
    {
      assert ts[i] in ts;
      EmbeddedSettles(json, ts[i].schema);
    }
    assert RelayedTools(json, once) == once;
    if once == ts {
      forall t | t in ts ensures Compact(json, t.schema) {
        var i :| 0 <= i < |ts| && ts[i] == t;
      }
    }
  }

  /** json.Marshal fails on a raw message that is not JSON, and the codecs then send an empty body. */
  predicate SchemasMarshal(json: Syntax, ts: seq<NormTool>) {
    forall t :: t in ts ==> json.valid(JsonRaw(t.schema))
  }
}
