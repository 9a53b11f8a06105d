/** internal/modelrewrite: rewriting the response's model fields back to the client's alias. */
module ModelRewrite {
  import opened Wrappers
  import opened Strings

  /** What gjson and sjson do to one JSON text; the code never looks inside it otherwise. */
  datatype Json = Json(
    valid: string -> bool,
    has: (string, string) -> bool,
    value: (string, string) -> string,
    put: (string, string, string) -> Option<string>)

  const MODEL_PATHS := ["model", "message.model", "response.model"]

  /** The laws of a JSON library that the alias guarantee rests on: setting a field that is there
      works, shows the new value, and leaves the other model fields alone. */
  ghost predicate Lawful(json: Json) {
    forall t, p, v ::
      json.valid(t) && p in MODEL_PATHS && json.has(t, p) ==>
        match json.put(t, p, v)
        case None => false
        case Some(u) =>
          && json.valid(u)
          && json.has(u, p) && json.value(u, p) == v
          && forall q :: q in MODEL_PATHS && q != p ==>
               json.has(u, q) == json.has(t, q) && json.value(u, q) == json.value(t, q)
  }

  /** Sets one model field if it is present; an sjson error leaves the text as it was. */
  function SetIfPresent(json: Json, body: string, path: string, alias: string): string {
    if json.has(body, path) then
      match json.put(body, path, alias)
      case Some(out) => out
      case None => body
    else body
  }

  function RewriteModelFields(json: Json, body: string, alias: string): string {
    SetIfPresent(json, SetIfPresent(json, SetIfPresent(json, body, "model", alias), "message.model", alias),
                 "response.model", alias)
  }

  /** Every model field that was present shows the alias afterwards, and no field appears or disappears. */
  lemma RewriteSetsEveryModelField(json: Json, body: string, alias: string)
    requires Lawful(json) && json.valid(body)
    ensures json.valid(RewriteModelFields(json, body, alias))
    ensures forall p :: p in MODEL_PATHS ==>
              && json.has(RewriteModelFields(json, body, alias), p) == json.has(body, p)
              && (json.has(body, p) ==> json.value(RewriteModelFields(json, body, alias), p) == alias)
  {
    assert MODEL_PATHS[0] == "model" && MODEL_PATHS[1] == "message.model" && MODEL_PATHS[2] == "response.model";
    assert |"model"| < |"message.model"| < |"response.model"|;
  }

  /** The payload of a "data:" line, as RewriteSSEFragment reads it. */
  function DataPayload(ln: string): (string, bool)
    requires HasPrefix(ln, "data:")
  {
    var rest := ln[|"data:"|..];
    var hadSpace := |rest| > 0 && rest[0] == ' ';
    (TrimRight(if hadSpace then rest[1..] else rest, " \t"), hadSpace)
  }

  predicate Rewritable(json: Json, ln: string) {
    HasPrefix(ln, "data:") &&
    var (rest, _) := DataPayload(ln);
    rest != "" && rest != "[DONE]" && json.valid(rest) &&
    (json.has(rest, "model") || json.has(rest, "message.model") || json.has(rest, "response.model"))
  }

  /** One line, rewritten. */
  function RewriteLine(json: Json, ln: string, alias: string): string {
    if Rewritable(json, ln) then
      var (rest, hadSpace) := DataPayload(ln);
      Framed(RewriteModelFields(json, rest, alias), hadSpace)
    else ln
  }

  function RewriteLines(json: Json, lines: seq<string>, alias: string): (r: seq<string>)
    ensures |r| == |lines|
    ensures forall i :: 0 <= i < |lines| ==> r[i] == RewriteLine(json, lines[i], alias)
  {
    seq(|lines|, i requires 0 <= i < |lines| => RewriteLine(json, lines[i], alias))
  }

  /** A whole fragment, rewritten line by line. */
  function Rewritten(json: Json, frag: string, alias: string): string {
    Join(RewriteLines(json, Split(frag, '\n'), alias), '\n')
  }

  // ---- what a reader of the stream sees ----

  const BLANKS := " \t\r\n"

  /** More laws of a JSON library: white space around a text does not matter, neither nothing nor the end marker is
      JSON, and setting a field of a text on one line leaves it on one line. */
  ghost predicate Readable(json: Json) {
    && (forall t, u :: BlanksDoNotMatter(json, t, u))
    && !json.valid("") && !json.valid("[DONE]")
    && (forall t, p, v :: json.valid(t) && '\n' !in t && json.put(t, p, v).Some? ==> '\n' !in json.put(t, p, v).value)
  }

  ghost predicate BlanksDoNotMatter(json: Json, t: string, u: string) {
    Trim(t, BLANKS) == Trim(u, BLANKS) ==> SameReading(json, t, u)
  }

  ghost predicate SameReading(json: Json, t: string, u: string) {
    json.valid(t) == json.valid(u) && forall p :: json.has(t, p) == json.has(u, p) && json.value(t, p) == json.value(u, p)
  }

  /** The event a reader finds in a line. */
  function EventOf(line: string): Option<string> {
    if HasPrefix(line, "data:") then Some(Trim(line[|"data:"|..], BLANKS)) else None
  }

  /** The line carries an event that names a model. */
  predicate NamesModel(json: Json, line: string) {
    EventOf(line).Some? && json.valid(EventOf(line).value) &&
    exists p :: p in MODEL_PATHS && json.has(EventOf(line).value, p)
  }

  /** A line that names a model comes out as the same kind of line, naming the alias wherever it named a model; every
      other line comes out as it is. */
  ghost predicate Aliased(json: Json, line: string, out: string, alias: string) {
    if NamesModel(json, line) then
      && EventOf(out).Some? && json.valid(EventOf(out).value)
      && (|line| > 5 && line[5] == ' ' ==> |out| > 5 && out[5] == ' ')
      && forall p :: p in MODEL_PATHS ==>
           && json.has(EventOf(out).value, p) == json.has(EventOf(line).value, p)
           && (json.has(EventOf(line).value, p) ==> json.value(EventOf(out).value, p) == alias)
    else out == line
  }

  lemma {:induction false} TrimLeftAgain(s: string, cutset: string)
    ensures TrimLeft(s, cutset) == if s != "" && s[0] in cutset then TrimLeft(s[1..], cutset) else s
  {
  }

  lemma {:induction false} TrimRightMore(s: string, few: string, many: string)
    requires forall c :: c in few ==> c in many
    ensures TrimRight(TrimRight(s, few), many) == TrimRight(s, many)
  {
    if s != "" && s[|s| - 1] in few {
      TrimRightMore(s[..|s| - 1], few, many);
    }
  }

  /** Cutting from the left and from the right commute. */
  lemma {:induction false} TrimEitherWay(s: string, few: string, many: string)
    requires forall c :: c in few ==> c in many
    ensures Trim(TrimRight(s, few), many) == Trim(s, many)
    decreases |s|
  {
    var r := TrimRight(s, few);
    if s != "" && s[0] in many {
      if r == "" {
        AllCut(s, few, many);
      } else {
        assert r[0] == s[0];
        TailOfTrim(s, few);
        TrimEitherWay(s[1..], few, many);
      }
    } else if s != "" {
      assert r != "" && r[0] == s[0];
      TrimRightMore(s, few, many);
    }
  }

  lemma {:induction false} TailOfTrim(s: string, few: string)
    requires s != "" && TrimRight(s, few) != ""
    ensures TrimRight(s[1..], few) == TrimRight(s, few)[1..]
  {
    if s[|s| - 1] in few {
      assert |s| > 1;
      TailOfTrim(s[..|s| - 1], few);
      assert s[1..][..|s| - 2] == s[..|s| - 1][1..];
    }
  }

  lemma {:induction false} AllCut(s: string, few: string, many: string)
    requires (forall c :: c in few ==> c in many) && TrimRight(s, few) == ""
    ensures Trim(s, many) == ""
  {
    if s != "" {
      assert forall i :: 0 <= i < |s| ==> s[i] in few;
      LeftCut(s, "", many);
      assert s + "" == s;
    }
  }

  /** The rewriter and the reader find the same event in a line, but for white space. */
  lemma SameEvent(line: string)
    requires HasPrefix(line, "data:")
    ensures Trim(DataPayload(line).0, BLANKS) == EventOf(line).value
  {
    var rest := line[|"data:"|..];
    var cut := if DataPayload(line).1 then rest[1..] else rest;
    TrimEitherWay(cut, " \t", BLANKS);
    TrimLeftAgain(rest, BLANKS);
  }

  /** The alias is set on one line. */
  lemma OneLineSet(json: Json, t: string, path: string, alias: string)
    requires Lawful(json) && Readable(json) && json.valid(t) && '\n' !in t && path in MODEL_PATHS
    ensures json.valid(SetIfPresent(json, t, path, alias)) && '\n' !in SetIfPresent(json, t, path, alias)
  {
  }

  lemma OneLineRewritten(json: Json, t: string, alias: string)
    requires Lawful(json) && Readable(json) && json.valid(t) && '\n' !in t
    ensures '\n' !in RewriteModelFields(json, t, alias)
  {
    assert MODEL_PATHS[0] == "model" && MODEL_PATHS[1] == "message.model" && MODEL_PATHS[2] == "response.model";
    var a := SetIfPresent(json, t, "model", alias);
    OneLineSet(json, t, "model", alias);
    OneLineSet(json, a, "message.model", alias);
    OneLineSet(json, SetIfPresent(json, a, "message.model", alias), "response.model", alias);
  }

  lemma SpaceIsCut(s: string)
    ensures Trim(" " + s, BLANKS) == Trim(s, BLANKS)
  {
    LeadingIsCut(' ', s, BLANKS);
  }

  lemma LeadingIsCut(c: char, s: string, cutset: string)
    requires c in cutset
    ensures Trim([c] + s, cutset) == Trim(s, cutset)
  {
    assert ([c] + s)[1..] == s;
  }

  /** The line put together again carries the event that was put in. */
  lemma FramedEvent(event: string, hadSpace: bool)
    ensures EventOf(Framed(event, hadSpace)) == Some(Trim(event, BLANKS))
  {
    var line := Framed(event, hadSpace);
    if hadSpace {
      assert line[|"data:"|..] == " " + event;
      SpaceIsCut(event);
    } else {
      assert line[|"data:"|..] == event;
    }
  }

  lemma NamingLineAliased(json: Json, line: string, alias: string)
    requires Lawful(json) && Readable(json) && '\n' !in line && Rewritable(json, line)
    ensures '\n' !in RewriteLine(json, line, alias)
    ensures
      var out := EventOf(RewriteLine(json, line, alias));
      var rest := DataPayload(line).0;
      && out.Some? && json.valid(out.value)
      && forall p :: p in MODEL_PATHS ==>
           && json.has(out.value, p) == json.has(rest, p)
           && (json.has(rest, p) ==> json.value(out.value, p) == alias)
  {
    var (rest, hadSpace) := DataPayload(line);
    RewriteSetsEveryModelField(json, rest, alias);
    OneLineRewritten(json, rest, alias);
    var event := RewriteModelFields(json, rest, alias);
    FramedReads(json, event, hadSpace);
  }

  function Framed(event: string, hadSpace: bool): string {
    (if hadSpace then "data: " else "data:") + event
  }

  lemma FramedReads(json: Json, event: string, hadSpace: bool)
    requires Readable(json)
    ensures EventOf(Framed(event, hadSpace)).Some?
    ensures SameReading(json, event, EventOf(Framed(event, hadSpace)).value)
  {
    FramedEvent(event, hadSpace);
    TrimIdempotent(event, BLANKS);
    assert BlanksDoNotMatter(json, event, Trim(event, BLANKS));
  }

  lemma LineAliased(json: Json, line: string, alias: string)
    requires Lawful(json) && Readable(json) && '\n' !in line
    ensures Aliased(json, line, RewriteLine(json, line, alias), alias) && '\n' !in RewriteLine(json, line, alias)
  {
    if HasPrefix(line, "data:") {
      EventRead(json, line);
      RewritableNames(json, line);
      if Rewritable(json, line) {
        NamingLineAliased(json, line, alias);
      }
    }
  }

  /** The rewriter reads the event a reader reads. */
  lemma EventRead(json: Json, line: string)
    requires Readable(json) && HasPrefix(line, "data:")
    ensures SameReading(json, DataPayload(line).0, EventOf(line).value)
  {
    SameEvent(line);
    TrimIdempotent(line[|"data:"|..], BLANKS);
    assert BlanksDoNotMatter(json, DataPayload(line).0, EventOf(line).value);
  }

  lemma RewritableNames(json: Json, line: string)
    requires Readable(json) && HasPrefix(line, "data:")
    requires SameReading(json, DataPayload(line).0, EventOf(line).value)
    ensures Rewritable(json, line) <==> NamesModel(json, line)
  {
    assert MODEL_PATHS[0] == "model" && MODEL_PATHS[1] == "message.model" && MODEL_PATHS[2] == "response.model";
  }

  /** Lines without newlines are what their join is split into. */
  lemma {:induction false} SplitJoin(lines: seq<string>)
    requires |lines| >= 1 && forall i :: 0 <= i < |lines| ==> '\n' !in lines[i]
    ensures Split(Join(lines, '\n'), '\n') == lines
  {
    NoNewline(lines[0]);
    if |lines| > 1 {
      SplitJoin(lines[1..]);
      assert Join(lines, '\n') == lines[0] + "\n" + Join(lines[1..], '\n');
      SplitAtNewline(lines[0], Join(lines[1..], '\n'));
    } else {
      assert lines == [lines[0]];
    }
  }

  lemma {:induction false} NoNewline(x: string)
    requires '\n' !in x
    ensures Split(x, '\n') == [x]
  {
    if x != "" {
      NoNewline(x[1..]);
      assert x == [x[0]] + x[1..];
    }
  }

  /** Line for line, the output is the fragment with every model named in it changed to the alias. */
  ghost predicate EveryLineAliased(json: Json, frag: string, out: string, alias: string) {
    var lines, shown := Split(frag, '\n'), Split(out, '\n');
    |shown| == |lines| && forall i :: 0 <= i < |lines| ==> Aliased(json, lines[i], shown[i], alias)
  }

  lemma FragmentAliased(json: Json, frag: string, alias: string)
    requires Lawful(json) && Readable(json)
    ensures EveryLineAliased(json, frag, Rewritten(json, frag, alias), alias)
  {
    var lines := Split(frag, '\n');
    var shown := RewriteLines(json, lines, alias);
    forall i | 0 <= i < |lines| ensures Aliased(json, lines[i], shown[i], alias) && '\n' !in shown[i] {
      assert lines[i] in lines;
      LineAliased(json, lines[i], alias);
    }
    SplitJoin(shown);
  }

  ghost predicate ShowsAlias(json: Json, frag: string, out: string, alias: string) {
    Lawful(json) && Readable(json) ==> EveryLineAliased(json, frag, out, alias)
  }

  lemma FragmentShowsAlias(json: Json, frag: string, alias: string)
    ensures ShowsAlias(json, frag, Rewritten(json, frag, alias), alias)
  {
    if Lawful(json) && Readable(json) {
      FragmentAliased(json, frag, alias);
    }
  }

  // ---- the fragment ----

  lemma {:induction false} LineOccurs(frag: string, p: string, i: nat)
    requires i < |Split(frag, '\n')| && p != "" && HasPrefix(Split(frag, '\n')[i], p)
    ensures exists k :: OccursAt(frag, p, k)
  {
    if frag != "" {
      var rest := Split(frag[1..], '\n');
      if frag[0] == '\n' || i > 0 {
        LineOccurs(frag[1..], p, if frag[0] == '\n' then i - 1 else i);
        var k :| OccursAt(frag[1..], p, k);
        assert frag[k + 1..k + 1 + |p|] == frag[1..][k..k + |p|];
        assert OccursAt(frag, p, k + 1);
      } else {
        FirstLineIsPrefix(frag);
        assert frag[0..|p|] == Split(frag, '\n')[0][..|p|];
        assert OccursAt(frag, p, 0);
      }
    }
  }

  lemma {:induction false} FirstLineIsPrefix(frag: string)
    ensures Split(frag, '\n')[0] <= frag
  {
    if frag != "" && frag[0] != '\n' {
      FirstLineIsPrefix(frag[1..]);
    }
  }

  lemma NoDataNoChange(json: Json, frag: string, alias: string)
    requires !Contains(frag, "data:")
    ensures Rewritten(json, frag, alias) == frag
  {
    var lines := Split(frag, '\n');
    forall i | 0 <= i < |lines| ensures RewriteLine(json, lines[i], alias) == lines[i] {
      if HasPrefix(lines[i], "data:") {
        LineOccurs(frag, "data:", i);
      }
    }
    assert RewriteLines(json, lines, alias) == lines;
    JoinSplit(frag, '\n');
  }

  /** The lines, overwritten in place. */
  method RewriteEach(json: Json, original: seq<string>, alias: string) returns (lines: seq<string>)
    ensures lines == RewriteLines(json, original, alias)
  {
    lines := original;
    var i := 0;
    while i < |lines|
      invariant 0 <= i <= |lines| == |original|
      invariant forall k :: 0 <= k < i ==> lines[k] == RewriteLine(json, original[k], alias)
      invariant forall k :: i <= k < |lines| ==> lines[k] == original[k]
    {
      var ln := lines[i];
      if Rewritable(json, ln) {
        var (rest, hadSpace) := DataPayload(ln);
        var prefix := if hadSpace then "data: " else "data:";
        lines := lines[i := prefix + RewriteModelFields(json, rest, alias)];
      }
      i := i + 1;
    }
  }

  /** RewriteSSEFragment: with or without its shortcut for fragments holding no data line, it computes the line-by-line
      rewrite, and by the laws of the JSON library every model named in the fragment comes out as the alias. */
  method RewriteSSEFragment(json: Json, frag: string, alias: string) returns (out: string)
    ensures out == Rewritten(json, frag, alias)
    ensures ShowsAlias(json, frag, out, alias)
  {
    FragmentShowsAlias(json, frag, alias);
    if !Contains(frag, "data:") {
      NoDataNoChange(json, frag, alias);
      return frag;
    }
    var lines := RewriteEach(json, Split(frag, '\n'), alias);
    return Join(lines, '\n');
  }

  lemma {:induction false} SplitAtNewline(x: string, y: string)
    ensures Split(x + "\n" + y, '\n') == Split(x, '\n') + Split(y, '\n')
  {
    var whole := x + "\n" + y;
    if x == "" {
      assert whole[1..] == y;
    } else {
      assert whole[0] == x[0] && whole[1..] == x[1..] + "\n" + y;
      SplitAtNewline(x[1..], y);
      FirstOfSplit(x[0], Split(x[1..], '\n'), Split(y, '\n'));
    }
  }

  lemma FirstOfSplit(c: char, a: seq<string>, b: seq<string>)
    requires a != []
    ensures [""] + (a + b) == [""] + a + b
    ensures [[c] + (a + b)[0]] + (a + b)[1..] == [[c] + a[0]] + a[1..] + b
  {
    assert (a + b)[1..] == a[1..] + b;
  }

  lemma {:induction false} JoinAppend(a: seq<string>, b: seq<string>)
    requires |a| >= 1 && |b| >= 1
    ensures Join(a + b, '\n') == Join(a, '\n') + "\n" + Join(b, '\n')
  {
    if |a| == 1 {
      assert (a + b)[1..] == b;
    } else {
      JoinAppend(a[1..], b);
      assert (a + b)[1..] == a[1..] + b;
    }
  }

  /** Rewriting commutes with cutting at any newline. */
  lemma RewriteAcrossNewline(json: Json, x: string, y: string, alias: string)
    ensures Rewritten(json, x + "\n" + y, alias) == Rewritten(json, x, alias) + "\n" + Rewritten(json, y, alias)
  {
    SplitAtNewline(x, y);
    RewriteLinesAppend(json, Split(x, '\n'), Split(y, '\n'), alias);
    JoinAppend(RewriteLines(json, Split(x, '\n'), alias), RewriteLines(json, Split(y, '\n'), alias));
  }

  lemma RewriteLinesAppend(json: Json, a: seq<string>, b: seq<string>, alias: string)
    ensures RewriteLines(json, a + b, alias) == RewriteLines(json, a, alias) + RewriteLines(json, b, alias)
  {
  }

  lemma RewriteEmpty(json: Json, alias: string)
    ensures Rewritten(json, "", alias) == ""
  {
  }

  /** A newline-terminated piece can be rewritten on its own. */
  lemma RewriteDistributes(json: Json, piece: string, rest: string, alias: string)
    requires piece == "" || piece[|piece| - 1] == '\n'
    ensures Rewritten(json, piece + rest, alias) == Rewritten(json, piece, alias) + Rewritten(json, rest, alias)
  {
    if piece == "" {
      assert piece + rest == rest;
    } else {
      var x := piece[..|piece| - 1];
      assert piece == x + "\n";
      RewriteAcrossNewline(json, x, rest, alias);
      RewriteOneLine(json, x, alias);
    }
  }

  lemma RewriteOneLine(json: Json, x: string, alias: string)
    ensures Rewritten(json, x + "\n", alias) == Rewritten(json, x, alias) + "\n"
  {
    RewriteAcrossNewline(json, x, "", alias);
    RewriteEmpty(json, alias);
    assert x + "\n" + "" == x + "\n";
  }

  // ---- no other model name ----

  /** No event in the text names a model other than the alias. */
  ghost predicate OnlyAlias(json: Json, text: string, alias: string) {
    forall line, p :: line in Split(text, '\n') && NamesModel(json, line) && p in MODEL_PATHS ==>
      json.has(EventOf(line).value, p) ==> json.value(EventOf(line).value, p) == alias
  }

  lemma RewrittenOnlyAlias(json: Json, frag: string, alias: string)
    requires Lawful(json) && Readable(json)
    ensures OnlyAlias(json, Rewritten(json, frag, alias), alias)
  {
    FragmentAliased(json, frag, alias);
    var lines, shown := Split(frag, '\n'), Split(Rewritten(json, frag, alias), '\n');
    forall line | line in shown && NamesModel(json, line)
      ensures forall p :: p in MODEL_PATHS && json.has(EventOf(line).value, p) ==>
                json.value(EventOf(line).value, p) == alias
    {
      var i :| 0 <= i < |shown| && shown[i] == line;
      assert Aliased(json, lines[i], shown[i], alias);
    }
  }
}
