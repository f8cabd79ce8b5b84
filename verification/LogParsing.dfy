/**
 The two log parsers: `LogParser`, fed one line at a time, and `parse_log_message`, given the whole
 message.  The theorem says exactly when they produce the same lines.
 */
module LogParsing {
  import opened LogText

  /** What a log entry hands on to its continuation lines. */
  datatype Carry = Carry(prefix: string, color: string)

  const FRESH := Carry("", "")

  /** `s.find("]:")`, or -1 */
  function FindBracketColon(s: string): (at: int)
    ensures -1 <= at && (at >= 0 ==> at + 2 <= |s|)
    ensures at >= 0 ==> s[at] == ']' && s[at + 1] == ':'
    ensures forall i: nat | i + 1 < if at < 0 then |s| else at + 1 :: !(s[i] == ']' && s[i + 1] == ':')
  {
    if |s| < 2 then -1
    else if s[0] == ']' && s[1] == ':' then 0
    else
      var at := FindBracketColon(s[1..]);
      assert forall i: nat | 0 < i < |s| :: s[i] == s[1..][i - 1];
      if at < 0 then -1 else at + 1
  }

  function ExtractCarry(line: string, strip: bool): Carry {
    var color := if strip then "" else line[..EscapeLength(line)];
    var plain := line[|color|..];
    var at := FindBracketColon(plain);
    Carry(if at < 0 then "" else plain[..at + 2], color)
  }

  predicate EndsWithReset(line: string) {
    |line| >= |ANSI_RESET| && line[|line| - |ANSI_RESET|..] == ANSI_RESET
  }

  predicate HasColor(line: string) {
    exists i: nat | i + 1 < |line| :: line[i] == ESC && line[i + 1] == '['
  }

  predicate NeedsReset(line: string) {
    line != "" && !EndsWithReset(line) && HasColor(line)
  }

  function FormatEntry(timestamp: string, line: string, strip: bool): string {
    timestamp + line + if !strip && NeedsReset(line) then ANSI_RESET else ""
  }

  function FormatContinuation(timestamp: string, c: Carry, line: string, strip: bool): string {
    var content := if c.prefix != "" then c.prefix + " " + line else line;
    if c.color != "" && !strip then
      timestamp + c.color + content + if EndsWithReset(line) then "" else ANSI_RESET
    else
      timestamp + content
  }

  function Clean(strip: bool, line: string): string {
    if strip then StripAnsi(line) else line
  }

  // One line at a time

  datatype Parsed = Parsed(output: string, carry: Carry)

  /** `LogParser.parse_line` on a line whose end is trimmed and whose escapes are stripped. */
  function ParseCleanLine(strip: bool, c: Carry, line: string, timestamp: string): Parsed {
    if line == "" then Parsed("", c)
    else if !IsSpace(line[0]) then Parsed(FormatEntry(timestamp, line, strip), ExtractCarry(line, strip))
    else if IsBlank(line) then Parsed("", c)
    else Parsed(FormatContinuation(timestamp, c, line, strip), c)
  }

  function ParseLine(strip: bool, c: Carry, line: string, timestamp: string): Parsed {
    ParseCleanLine(strip, c, Clean(strip, TrimLineEnd(line)), timestamp)
  }

  /** What is fed to the parser: a line and the time of its arrival. */
  datatype Input = Input(line: string, timestamp: string)

  /** The outputs for `inputs`, fed one after the other. */
  function Stream(strip: bool, c: Carry, inputs: seq<Input>): (outputs: seq<string>)
    ensures |outputs| == |inputs|
    decreases |inputs|
  {
    if inputs == [] then []
    else
      var p := ParseLine(strip, c, inputs[0].line, inputs[0].timestamp);
      [p.output] + Stream(strip, p.carry, inputs[1..])
  }

  /** What the parser has kept after `inputs`. */
  function StreamCarry(strip: bool, c: Carry, inputs: seq<Input>): Carry
    decreases |inputs|
  {
    if inputs == [] then c
    else StreamCarry(strip, ParseLine(strip, c, inputs[0].line, inputs[0].timestamp).carry, inputs[1..])
  }

  lemma {:induction false} StreamSnoc(strip: bool, c: Carry, inputs: seq<Input>, last: Input)
    ensures var p := ParseLine(strip, StreamCarry(strip, c, inputs), last.line, last.timestamp);
            && Stream(strip, c, inputs + [last]) == Stream(strip, c, inputs) + [p.output]
            && StreamCarry(strip, c, inputs + [last]) == p.carry
    decreases |inputs|
  {
    hide ParseLine;
    if inputs == [] {
      assert [last][1..] == [];
    } else {
      assert (inputs + [last])[1..] == inputs[1..] + [last];
      StreamSnoc(strip, ParseLine(strip, c, inputs[0].line, inputs[0].timestamp).carry, inputs[1..], last);
    }
  }

  /** Lines that all arrive at the same time. */
  function At(lines: seq<string>, timestamp: string): (inputs: seq<Input>)
    ensures |inputs| == |lines|
  {
    seq(|lines|, k requires 0 <= k < |lines| => Input(lines[k], timestamp))
  }

  // The whole message

  /** One line after the first, in `_parse_multiline`. */
  function ParseLaterLine(strip: bool, c: Carry, line: string, timestamp: string): Parsed {
    if IsBlank(line) then Parsed("", c)
    else if !StartsWithSpace(line) then Parsed(FormatEntry(timestamp, line, strip), ExtractCarry(line, strip))
    else Parsed(FormatContinuation(timestamp, c, line, strip), c)
  }

  function CarryAfter(strip: bool, c: Carry, lines: seq<string>, timestamp: string): Carry {
    if lines == [] then c
    else
      var before := CarryAfter(strip, c, lines[..|lines| - 1], timestamp);
      ParseLaterLine(strip, before, lines[|lines| - 1], timestamp).carry
  }

  function LaterLines(strip: bool, c: Carry, lines: seq<string>, timestamp: string): (outputs: seq<string>)
    ensures |outputs| == |lines|
    decreases |lines|
  {
    if lines == [] then []
    else
      var p := ParseLaterLine(strip, c, lines[0], timestamp);
      [p.output] + LaterLines(strip, p.carry, lines[1..], timestamp)
  }

  function FirstCarry(strip: bool, line: string): Carry {
    if line != "" && !IsSpace(line[0]) then ExtractCarry(line, strip) else FRESH
  }

  predicate DropsLast(lines: seq<string>) {
    |lines| > 1 && (lines[|lines| - 1] == "" || lines[|lines| - 1] == ANSI_RESET)
  }

  function DropLast(lines: seq<string>): seq<string> {
    if DropsLast(lines) then lines[..|lines| - 1] else lines
  }

  function BatchLines(strip: bool, lines: seq<string>, timestamp: string): (outputs: seq<string>)
    requires lines != []
    ensures |outputs| == |lines|
  {
    [FormatEntry(timestamp, lines[0], strip)] + LaterLines(strip, FirstCarry(strip, lines[0]), lines[1..], timestamp)
  }

  /** `parse_log_message` */
  function Batch(strip: bool, text: string, timestamp: string): seq<string> {
    BatchLines(strip, DropLast(Split(Clean(strip, text))), timestamp)
  }

  // The parsers in the form of the source

  class LogParser {
    const stripAnsiEscapes: bool
    var currentPrefix: string
    var currentColorCode: string
    ghost var fed: seq<Input>        // history: the lines so far
    ghost var printed: seq<string>   // history: the outputs so far

    function View(): Carry
      reads this
    {
      Carry(currentPrefix, currentColorCode)
    }

    /** The outputs and the fields are those of the stream of all lines so far. */
    ghost predicate Valid()
      reads this
    {
      && printed == Stream(stripAnsiEscapes, FRESH, fed)
      && View() == StreamCarry(stripAnsiEscapes, FRESH, fed)
    }

    constructor (stripAnsiEscapes: bool)
      ensures Valid() && fed == [] && this.stripAnsiEscapes == stripAnsiEscapes
    {
      this.stripAnsiEscapes := stripAnsiEscapes;
      currentPrefix, currentColorCode := "", "";
      fed, printed := [], [];
    }

    method ParseNextLine(text: string, timestamp: string) returns (output: string)
      requires Valid()
      modifies this
      ensures Valid()
      ensures fed == old(fed) + [Input(text, timestamp)] && printed == old(printed) + [output]
    {
      hide ParseLine;
      StreamSnoc(stripAnsiEscapes, FRESH, fed, Input(text, timestamp));
      output := FormatNextLine(text, timestamp);
      fed, printed := fed + [Input(text, timestamp)], printed + [output];
    }

    /** A fresh parser that was fed the lines the batch parser keeps has printed what that parser prints. */
    lemma PrintedLikeBatch(text: string, timestamp: string)
      requires Valid() && fed == At(KeptLines(stripAnsiEscapes, text), timestamp)
      requires NoLineEndsInReturn(Split(text))
      ensures printed == Batch(stripAnsiEscapes, text, timestamp) <==>
              var first := KeptLines(stripAnsiEscapes, text)[0];
              FirstLineAgrees(stripAnsiEscapes, Clean(stripAnsiEscapes, first), timestamp)
    {
      StreamingIsBatch(stripAnsiEscapes, text, timestamp);
    }

    method FormatNextLine(text: string, timestamp: string) returns (output: string)
      modifies this`currentPrefix, this`currentColorCode
      ensures Parsed(output, View()) == ParseLine(stripAnsiEscapes, old(View()), text, timestamp)
    {
      hide FormatEntry, FormatContinuation, ExtractCarry, StripAnsi;
      var line := TrimLineEnd(text);
      if stripAnsiEscapes {
        line := StripAnsi(line);
      }
      if line == "" {
        return "";
      }
      if !IsSpace(line[0]) {
        var c := ExtractCarry(line, stripAnsiEscapes);
        currentPrefix, currentColorCode := c.prefix, c.color;
        return FormatEntry(timestamp, line, stripAnsiEscapes);
      }
      if IsBlank(line) {
        return "";
      }
      return FormatContinuation(timestamp, View(), line, stripAnsiEscapes);
    }
  }

  lemma {:induction false} LaterLinesSnoc(strip: bool, c: Carry, lines: seq<string>, line: string, timestamp: string)
    ensures LaterLines(strip, c, lines + [line], timestamp) ==
            LaterLines(strip, c, lines, timestamp) +
            [ParseLaterLine(strip, CarryAfter(strip, c, lines, timestamp), line, timestamp).output]
    ensures CarryAfter(strip, c, lines + [line], timestamp) ==
            ParseLaterLine(strip, CarryAfter(strip, c, lines, timestamp), line, timestamp).carry
    decreases |lines|
  {
    hide ParseLaterLine;
    assert (lines + [line])[..|lines|] == lines;
    if lines == [] {
      assert (lines + [line])[1..] == [];
    } else {
      var p := ParseLaterLine(strip, c, lines[0], timestamp);
      assert (lines + [line])[1..] == lines[1..] + [line];
      LaterLinesSnoc(strip, p.carry, lines[1..], line, timestamp);
      CarryFromFirst(strip, c, lines, timestamp);
    }
  }

  lemma {:induction false} CarryFromFirst(strip: bool, c: Carry, lines: seq<string>, timestamp: string)
    requires lines != []
    ensures CarryAfter(strip, c, lines, timestamp) ==
            CarryAfter(strip, ParseLaterLine(strip, c, lines[0], timestamp).carry, lines[1..], timestamp)
    decreases |lines|
  {
    hide ParseLaterLine;
    if |lines| > 1 {
      var front := lines[..|lines| - 1];
      CarryFromFirst(strip, c, front, timestamp);
      assert front[1..] == lines[1..][..|lines| - 2];
    }
  }

  /** `_parse_multiline` */
  method ParseMultiline(text: string, timestamp: string, strip: bool) returns (result: seq<string>)
    requires !OneLine(text)
    ensures result == BatchLines(strip, DropLast(Split(text)), timestamp)
  {
    hide FormatEntry, FormatContinuation, ExtractCarry, Split;
    var lines := Split(text);
    TwoLines(text);
    if lines[|lines| - 1] == "" || lines[|lines| - 1] == ANSI_RESET {
      lines := lines[..|lines| - 1];
    }
    var first := lines[0];
    result := [FormatEntry(timestamp, first, strip)];
    var prefix, color := "", "";
    if first != "" && !IsSpace(first[0]) {
      var c := ExtractCarry(first, strip);
      prefix, color := c.prefix, c.color;
    }
    var rest := FormatRest(lines[1..], timestamp, strip, prefix, color);
    result := result + rest;
  }

  lemma TwoLines(text: string)
    requires !OneLine(text)
    ensures |Split(text)| >= 2
  {
    SplitJoins(text);
    SplitIntoLines(text);
  }

  /** The loop of `_parse_multiline` over the lines after the first. */
  method FormatRest(lines: seq<string>, timestamp: string, strip: bool, firstPrefix: string, firstColor: string)
    returns (result: seq<string>)
    ensures result == LaterLines(strip, Carry(firstPrefix, firstColor), lines, timestamp)
  {
    hide FormatEntry, FormatContinuation, ExtractCarry, LaterLines, CarryAfter;
    var prefix, color := firstPrefix, firstColor;
    ghost var start := Carry(firstPrefix, firstColor);
    result := [];
    NoLaterLines(strip, start, timestamp);
    for i := 0 to |lines|
      invariant result == LaterLines(strip, start, lines[..i], timestamp)
      invariant Carry(prefix, color) == CarryAfter(strip, start, lines[..i], timestamp)
    {
      var line := lines[i];
      assert lines[..i + 1] == lines[..i] + [line];
      LaterLinesSnoc(strip, start, lines[..i], line, timestamp);
      if IsBlank(line) {
        result := result + [""];
      } else if !StartsWithSpace(line) {
        result := result + [FormatEntry(timestamp, line, strip)];
        var c := ExtractCarry(line, strip);
        prefix, color := c.prefix, c.color;
      } else {
        result := result + [FormatContinuation(timestamp, Carry(prefix, color), line, strip)];
      }
    }
    assert lines[..|lines|] == lines;
  }

  lemma NoLaterLines(strip: bool, c: Carry, timestamp: string)
    ensures LaterLines(strip, c, [], timestamp) == [] && CarryAfter(strip, c, [], timestamp) == c
  {
  }

  method ParseLogMessage(text: string, timestamp: string, strip: bool) returns (result: seq<string>)
    ensures result == Batch(strip, text, timestamp)
  {
    hide FormatEntry, FormatContinuation, ExtractCarry, StripAnsi, LaterLines;
    var clean := text;
    if strip {
      clean := StripAnsi(text);
    }
    if OneLine(clean) {
      SplitOneLine(clean);
      NoLaterLines(strip, FirstCarry(strip, clean), timestamp);
      return [FormatEntry(timestamp, clean, strip)];
    }
    result := ParseMultiline(clean, timestamp, strip);
  }

  // Streaming against batch

  predicate NoLineEndsInReturn(lines: seq<string>) {
    forall k | 0 <= k < |lines| && lines[k] != "" :: lines[k][|lines[k]| - 1] != '\r'
  }

  predicate Trimmed(lines: seq<string>) {
    forall k | 0 <= k < |lines| :: TrimLineEnd(lines[k]) == lines[k]
  }

  lemma SplitIsTrimmed(text: string)
    requires NoLineEndsInReturn(Split(text))
    ensures Trimmed(Split(text))
  {
    SplitIntoLines(text);
    var lines := Split(text);
    forall k | 0 <= k < |lines|
      ensures TrimLineEnd(lines[k]) == lines[k]
    {
      assert OneLine(lines[k]);
    }
  }

  /** The raw lines that remain when the batch parser has dropped its trailing line. */
  function KeptLines(strip: bool, text: string): (kept: seq<string>)
    ensures kept != []
  {
    var raw := Split(text);
    if DropsLast(Split(Clean(strip, text))) && |raw| > 1 then raw[..|raw| - 1] else raw
  }

  /** After the first line both parsers treat every line alike. */
  lemma {:induction false} LaterLinesAgree(strip: bool, c: Carry, raw: seq<string>, clean: seq<string>,
                                           timestamp: string)
    requires |clean| == |raw| && Trimmed(raw)
    requires forall k | 0 <= k < |raw| :: clean[k] == Clean(strip, raw[k])
    ensures Stream(strip, c, At(raw, timestamp)) == LaterLines(strip, c, clean, timestamp)
    decreases |raw|
  {
    hide FormatEntry, FormatContinuation, ExtractCarry, StripAnsi;
    if raw != [] {
      assert TrimLineEnd(raw[0]) == raw[0];
      assert clean[0] == "" ==> IsBlank(clean[0]);
      var p := ParseLine(strip, c, raw[0], timestamp);
      assert p == ParseLaterLine(strip, c, clean[0], timestamp);
      LaterLinesAgree(strip, p.carry, raw[1..], clean[1..], timestamp);
      assert At(raw, timestamp)[1..] == At(raw[1..], timestamp);
    }
  }

  /** When the two parsers agree on the first line. */
  predicate FirstLineAgrees(strip: bool, line: string, timestamp: string) {
    if line == "" then timestamp == ""
    else !IsSpace(line[0]) || (!IsBlank(line) && (strip || !NeedsReset(line)))
  }

  lemma FirstLineCases(strip: bool, line: string, timestamp: string)
    ensures ParseCleanLine(strip, FRESH, line, timestamp).output == FormatEntry(timestamp, line, strip) <==>
            FirstLineAgrees(strip, line, timestamp)
    ensures ParseCleanLine(strip, FRESH, line, timestamp).carry == FirstCarry(strip, line)
  {
    hide ExtractCarry;
    var batch := FormatEntry(timestamp, line, strip);
    assert |batch| == |timestamp| + |line| + if !strip && NeedsReset(line) then |ANSI_RESET| else 0;
  }

  /**
   Fed the lines that the batch parser keeps, a fresh `LogParser` prints what the batch parser prints
   exactly when the first line is a fresh entry, or one that both happen to print alike.
   */
  lemma StreamingIsBatch(strip: bool, text: string, timestamp: string)
    requires NoLineEndsInReturn(Split(text))
    ensures Stream(strip, FRESH, At(KeptLines(strip, text), timestamp)) == Batch(strip, text, timestamp) <==>
            FirstLineAgrees(strip, Clean(strip, KeptLines(strip, text)[0]), timestamp)
  {
    hide StripAnsi, FormatEntry, ParseCleanLine, FirstLineAgrees, FirstCarry, Split;
    var raw := KeptLines(strip, text);
    var clean := DropLast(Split(Clean(strip, text)));
    SplitOfStripped(text);
    SplitIsTrimmed(text);
    assert |clean| == |raw| && forall k | 0 <= k < |raw| :: clean[k] == Clean(strip, raw[k]);
    assert Trimmed(raw[1..]);
    assert TrimLineEnd(raw[0]) == raw[0];
    FirstLineCases(strip, clean[0], timestamp);
    var carry := FirstCarry(strip, clean[0]);
    LaterLinesAgree(strip, carry, raw[1..], clean[1..], timestamp);
    var p := ParseCleanLine(strip, FRESH, clean[0], timestamp);
    var rest := Stream(strip, carry, At(raw[1..], timestamp));
    assert At(raw, timestamp)[1..] == At(raw[1..], timestamp);
    assert Stream(strip, FRESH, At(raw, timestamp)) == [p.output] + rest;
    SameHead(p.output, FormatEntry(timestamp, clean[0], strip), rest);
  }

  lemma SameHead(a: string, b: string, rest: seq<string>)
    ensures [a] + rest == [b] + rest <==> a == b
  {
    assert ([a] + rest)[0] == a && ([b] + rest)[0] == b;
  }
}
