/**
 What the two log parsers print for each line, told from the lines alone: no prefix or colour is carried
 along, and the text is put together here again.
 */
module LogOutputs {
  import opened LogText
  import opened LogParsing

  /** A line that begins an entry; what is not blank otherwise continues one. */
  predicate BeginsEntry(line: string) {
    line != "" && !IsSpace(line[0])
  }

  predicate ContinuesEntry(line: string) {
    line != "" && IsSpace(line[0]) && !IsBlank(line)
  }

  predicate Occurs(part: string, text: string, at: nat) {
    at + |part| <= |text| && text[at..at + |part|] == part
  }

  predicate EndsInReset(line: string) {
    |line| >= 4 && line[|line| - 4..] == "\U{1B}[0m"
  }

  /** The first "]:" of the text. */
  predicate FirstMark(text: string, at: nat) {
    Occurs("]:", text, at) && forall i: nat | i < at :: !Occurs("]:", text, i)
  }

  // The three kinds of lines

  ghost predicate EntryOutput(strip: bool, line: string, timestamp: string, output: string) {
    var colored := exists i: nat :: Occurs("\U{1B}[", line, i);
    output == timestamp + line + if !strip && colored && !EndsInReset(line) then "\U{1B}[0m" else ""
  }

  /** The continuation of an entry that reads `plain` without its colour. */
  ghost predicate Marked(head: string, plain: string, line: string, tail: string, output: string) {
    && (forall at: nat | FirstMark(plain, at) :: output == head + plain[..at + 2] + " " + line + tail)
    && ((forall at: nat :: !FirstMark(plain, at)) ==> output == head + line + tail)
  }

  /** An escape word at the start of the entry colours its continuations, which are reset at their end. */
  ghost predicate ContinuationOutput(strip: bool, entry: string, line: string, timestamp: string, output: string) {
    && (forall n | 0 < n <= |entry| && EscapeWord(entry, n) && !strip ::
          Marked(timestamp + entry[..n], entry[n..], line, if EndsInReset(line) then "" else "\U{1B}[0m", output))
    && ((strip || forall n | 0 < n <= |entry| :: !EscapeWord(entry, n)) ==>
          Marked(timestamp, entry, line, "", output))
  }

  /** The last line before `i` that begins an entry. */
  predicate EntryBefore(lines: seq<string>, i: nat, j: nat) {
    j < i <= |lines| && BeginsEntry(lines[j]) && forall k | j < k < i :: !BeginsEntry(lines[k])
  }

  /** What is printed for line `i`. */
  ghost predicate Prints(strip: bool, lines: seq<string>, i: nat, timestamp: string, output: string)
    requires i < |lines|
  {
    var line := lines[i];
    && (BeginsEntry(line) ==> EntryOutput(strip, line, timestamp, output))
    && (IsBlank(line) ==> output == "")
    && (ContinuesEntry(line) ==>
          && (forall j: nat | EntryBefore(lines, i, j) :: ContinuationOutput(strip, lines[j], line, timestamp, output))
          && ((forall j | 0 <= j < i :: !BeginsEntry(lines[j])) ==> output == timestamp + line))
  }

  // The pieces of the parsers

  lemma EntryIsFormatted(strip: bool, line: string, timestamp: string)
    ensures EntryOutput(strip, line, timestamp, FormatEntry(timestamp, line, strip))
  {
    ColorIsFound(line);
    ResetIsFound(line);
    assert timestamp + line + "" == timestamp + line;
  }

  lemma ResetIsFound(line: string)
    ensures EndsWithReset(line) <==> EndsInReset(line)
    ensures ANSI_RESET == "\U{1B}[0m"
  {
  }

  lemma ColorIsFound(line: string)
    ensures HasColor(line) <==> exists i: nat :: Occurs("\U{1B}[", line, i)
  {
    hide Occurs;
    if i: nat :| i + 1 < |line| && line[i] == ESC && line[i + 1] == '[' {
      TwoCharacters("\U{1B}[", line, i);
    }
    if i: nat :| Occurs("\U{1B}[", line, i) {
      TwoCharacters("\U{1B}[", line, i);
      assert line[i] == ESC && line[i + 1] == '[';
    }
  }

  lemma TwoCharacters(part: string, text: string, at: nat)
    requires |part| == 2
    ensures Occurs(part, text, at) <==> at + 1 < |text| && text[at] == part[0] && text[at + 1] == part[1]
  {
    if at + 2 <= |text| {
      assert text[at..at + 2] == [text[at], text[at + 1]];
      assert part == [part[0], part[1]];
    }
  }

  lemma MarkIsFound(text: string)
    ensures FindBracketColon(text) < 0 ==> forall k: nat :: !FirstMark(text, k)
    ensures FindBracketColon(text) >= 0 ==> forall k: nat :: FirstMark(text, k) <==> k == FindBracketColon(text)
  {
    hide FindBracketColon, Occurs;
    var at := FindBracketColon(text);
    forall k: nat | k + 1 < if at < 0 then |text| else at + 1
      ensures !Occurs("]:", text, k)
    {
      TwoCharacters("]:", text, k);
      assert !(text[k] == ']' && text[k + 1] == ':');
    }
    forall k: nat | k + 1 >= |text|
      ensures !Occurs("]:", text, k)
    {
      TwoCharacters("]:", text, k);
    }
    if at >= 0 {
      TwoCharacters("]:", text, at);
    }
  }

  lemma MarkedIs(head: string, plain: string, line: string, tail: string, output: string)
    requires output == head + (if FindBracketColon(plain) < 0 then line
                               else plain[..FindBracketColon(plain) + 2] + " " + line) + tail
    ensures Marked(head, plain, line, tail, output)
  {
    MarkIsFound(plain);
    hide FindBracketColon, FirstMark;
    var at := FindBracketColon(plain);
    if at >= 0 {
      assert FirstMark(plain, at);
      var prefix := plain[..at + 2];
      assert head + (prefix + " " + line) + tail == head + prefix + " " + line + tail;
    }
  }

  lemma ColoredContinuation(entry: string, line: string, timestamp: string)
    requires EscapeLength(entry) > 0
    ensures var n := EscapeLength(entry);
            Marked(timestamp + entry[..n], entry[n..], line, if EndsInReset(line) then "" else "\U{1B}[0m",
                   FormatContinuation(timestamp, ExtractCarry(entry, false), line, false))
  {
    hide FindBracketColon, EscapeLength, Marked, EndsInReset, EndsWithReset;
    var n := EscapeLength(entry);
    var tail := if EndsInReset(line) then "" else "\U{1B}[0m";
    ResetIsFound(line);
    assert entry[..n] != "";
    MarkedIs(timestamp + entry[..n], entry[n..], line, tail,
             FormatContinuation(timestamp, ExtractCarry(entry, false), line, false));
  }

  lemma PlainContinuation(strip: bool, entry: string, line: string, timestamp: string)
    requires strip || EscapeLength(entry) == 0
    ensures Marked(timestamp, entry, line, "",
                   FormatContinuation(timestamp, ExtractCarry(entry, strip), line, strip))
  {
    hide FindBracketColon, EscapeLength, Marked, EndsWithReset;
    assert entry[0..] == entry;
    var output := FormatContinuation(timestamp, ExtractCarry(entry, strip), line, strip);
    assert output + "" == output;
    MarkedIs(timestamp, entry, line, "", output);
  }

  lemma ContinuationIsFormatted(strip: bool, entry: string, line: string, timestamp: string)
    ensures ContinuationOutput(strip, entry, line, timestamp,
                               FormatContinuation(timestamp, ExtractCarry(entry, strip), line, strip))
  {
    hide FindBracketColon, EscapeWord, EscapeLength, Marked, EndsInReset, FormatContinuation, ExtractCarry;
    var n := EscapeLength(entry);
    forall k | 0 < k <= |entry|
      ensures EscapeWord(entry, k) <==> k == n
    {
      EscapeIsTheWord(entry, k);
    }
    if strip || n == 0 {
      PlainContinuation(strip, entry, line, timestamp);
    } else {
      assert EscapeWord(entry, n);
      ColoredContinuation(entry, line, timestamp);
    }
  }

  lemma FreshContinuation(strip: bool, line: string, timestamp: string)
    ensures FormatContinuation(timestamp, FRESH, line, strip) == timestamp + line
  {
  }

  // Streaming

  /** The lines as the streaming parser sees them. */
  function FedLines(strip: bool, inputs: seq<Input>): (lines: seq<string>)
    ensures |lines| == |inputs|
  {
    seq(|inputs|, k requires 0 <= k < |inputs| => Clean(strip, TrimLineEnd(inputs[k].line)))
  }

  lemma {:induction false} StreamAt(strip: bool, c: Carry, inputs: seq<Input>, i: nat)
    requires i < |inputs|
    ensures Stream(strip, c, inputs)[i] ==
            ParseLine(strip, StreamCarry(strip, c, inputs[..i]), inputs[i].line, inputs[i].timestamp).output
    decreases |inputs|
  {
    hide ParseLine;
    if i > 0 {
      var p := ParseLine(strip, c, inputs[0].line, inputs[0].timestamp);
      StreamAt(strip, p.carry, inputs[1..], i - 1);
      assert inputs[..i][1..] == inputs[1..][..i - 1];
    }
  }

  /** What is carried along is what the last entry left. */
  ghost predicate Carries(strip: bool, lines: seq<string>, i: nat, c: Carry)
    requires i <= |lines|
  {
    && (forall j: nat | EntryBefore(lines, i, j) :: c == ExtractCarry(lines[j], strip))
    && ((forall j | 0 <= j < i :: !BeginsEntry(lines[j])) ==> c == FRESH)
  }

  lemma EntryBeforeNext(lines: seq<string>, i: nat, j: nat)
    requires i < |lines|
    ensures EntryBefore(lines, i + 1, j) <==> if BeginsEntry(lines[i]) then j == i else EntryBefore(lines, i, j)
  {
  }

  lemma CarriesOn(strip: bool, lines: seq<string>, i: nat, c: Carry)
    requires i < |lines| && Carries(strip, lines, i, c)
    ensures Carries(strip, lines, i + 1, if BeginsEntry(lines[i]) then ExtractCarry(lines[i], strip) else c)
  {
    hide ExtractCarry, BeginsEntry, EntryBefore;
    var next := i + 1;
    forall j: nat | EntryBefore(lines, next, j)
      ensures if BeginsEntry(lines[i]) then j == i else EntryBefore(lines, i, j)
    {
      EntryBeforeNext(lines, i, j);
    }
  }

  lemma {:induction false} StreamCarries(strip: bool, inputs: seq<Input>, i: nat)
    requires i <= |inputs|
    ensures Carries(strip, FedLines(strip, inputs), i, StreamCarry(strip, FRESH, inputs[..i]))
    decreases i
  {
    hide ExtractCarry, FormatEntry, FormatContinuation, Clean, Carries;
    var lines := FedLines(strip, inputs);
    if i == 0 {
      FreshAtStart(strip, lines);
    } else {
      var before := inputs[..i - 1];
      StreamCarries(strip, inputs, i - 1);
      var c := StreamCarry(strip, FRESH, before);
      CarriesOn(strip, lines, i - 1, c);
      assert inputs[..i] == before + [inputs[i - 1]];
      StreamSnoc(strip, FRESH, before, inputs[i - 1]);
    }
  }

  lemma FreshAtStart(strip: bool, lines: seq<string>)
    ensures Carries(strip, lines, 0, FRESH)
  {
  }

  /** Given what is carried, a clean line prints as it should, in both parsers. */
  lemma LinePrints(strip: bool, lines: seq<string>, i: nat, c: Carry, timestamp: string)
    requires i < |lines| && Carries(strip, lines, i, c)
    ensures Prints(strip, lines, i, timestamp, ParseCleanLine(strip, c, lines[i], timestamp).output)
    ensures Prints(strip, lines, i, timestamp, ParseLaterLine(strip, c, lines[i], timestamp).output)
  {
    hide ExtractCarry, FormatEntry, FormatContinuation, EntryOutput, ContinuationOutput;
    var line := lines[i];
    EntryIsFormatted(strip, line, timestamp);
    FreshContinuation(strip, line, timestamp);
    forall j: nat | EntryBefore(lines, i, j)
      ensures ContinuationOutput(strip, lines[j], line, timestamp, FormatContinuation(timestamp, c, line, strip))
    {
      ContinuationIsFormatted(strip, lines[j], line, timestamp);
    }
  }

  /** Every line that a fresh streaming parser prints. */
  lemma StreamPrints(strip: bool, inputs: seq<Input>, i: nat)
    requires i < |inputs|
    ensures Prints(strip, FedLines(strip, inputs), i, inputs[i].timestamp, Stream(strip, FRESH, inputs)[i])
  {
    hide Prints, ParseCleanLine, Clean;
    StreamAt(strip, FRESH, inputs, i);
    StreamCarries(strip, inputs, i);
    LinePrints(strip, FedLines(strip, inputs), i, StreamCarry(strip, FRESH, inputs[..i]), inputs[i].timestamp);
  }

  /** And so every line that a parser object has printed. */
  lemma ObjectPrints(parser: LogParser, i: nat)
    requires parser.Valid() && i < |parser.fed|
    ensures |parser.printed| == |parser.fed|
    ensures Prints(parser.stripAnsiEscapes, FedLines(parser.stripAnsiEscapes, parser.fed), i, parser.fed[i].timestamp,
                   parser.printed[i])
  {
    StreamPrints(parser.stripAnsiEscapes, parser.fed, i);
  }

  // The whole message

  lemma {:induction false} LaterLinesAt(strip: bool, c: Carry, lines: seq<string>, timestamp: string, i: nat)
    requires i < |lines|
    ensures LaterLines(strip, c, lines, timestamp)[i] ==
            ParseLaterLine(strip, CarryAfter(strip, c, lines[..i], timestamp), lines[i], timestamp).output
    decreases |lines|
  {
    hide ParseLaterLine;
    if i > 0 {
      var p := ParseLaterLine(strip, c, lines[0], timestamp);
      LaterLinesAt(strip, p.carry, lines[1..], timestamp, i - 1);
      CarryFromFirst(strip, c, lines[..i], timestamp);
      assert lines[..i][1..] == lines[1..][..i - 1];
    }
  }

  lemma {:induction false} BatchCarries(strip: bool, lines: seq<string>, timestamp: string, i: nat)
    requires i < |lines|
    ensures Carries(strip, lines, i + 1, CarryAfter(strip, FirstCarry(strip, lines[0]), lines[1..][..i], timestamp))
    decreases i
  {
    hide ExtractCarry, FormatEntry, FormatContinuation, Carries;
    if i == 0 {
      FreshAtStart(strip, lines);
      CarriesOn(strip, lines, 0, FRESH);
    } else {
      BatchCarries(strip, lines, timestamp, i - 1);
      var later := lines[1..];
      var c := CarryAfter(strip, FirstCarry(strip, lines[0]), later[..i - 1], timestamp);
      CarriesOn(strip, lines, i, c);
      assert later[..i][..i - 1] == later[..i - 1];
    }
  }

  /** The lines of a message; of several, a last one that is empty or only a reset does not count. */
  function MessageLines(strip: bool, text: string): (lines: seq<string>)
    ensures lines != []
  {
    var all := Split(Clean(strip, text));
    var last := all[|all| - 1];
    if |all| > 1 && (last == "" || last == "\U{1B}[0m") then all[..|all| - 1] else all
  }

  lemma MessageLinesAreKept(strip: bool, text: string)
    ensures DropLast(Split(Clean(strip, text))) == MessageLines(strip, text)
  {
    ResetIsFound("");
  }

  /** Every line that the batch parser prints; the first is always printed as an entry. */
  lemma BatchPrints(strip: bool, text: string, timestamp: string, i: nat)
    requires i < |MessageLines(strip, text)|
    ensures var lines := MessageLines(strip, text);
            && |Batch(strip, text, timestamp)| == |lines|
            && (i == 0 ==> EntryOutput(strip, lines[0], timestamp, Batch(strip, text, timestamp)[0]))
            && (i > 0 ==> Prints(strip, lines, i, timestamp, Batch(strip, text, timestamp)[i]))
  {
    hide Prints, ParseLaterLine, EntryOutput, FormatEntry, MessageLines, DropLast;
    MessageLinesAreKept(strip, text);
    var lines := MessageLines(strip, text);
    if i == 0 {
      EntryIsFormatted(strip, lines[0], timestamp);
    } else {
      var first := FirstCarry(strip, lines[0]);
      LaterLinesAt(strip, first, lines[1..], timestamp, i - 1);
      BatchCarries(strip, lines, timestamp, i - 1);
      LinePrints(strip, lines, i, CarryAfter(strip, first, lines[1..][..i - 1], timestamp), timestamp);
    }
  }
}
