/** ANSI escape sequences, lines and whitespace, as the log parsers see them. */
module LogText {
  const ESC := '\U{1B}'
  const CSI := '\U{9B}'
  const ANSI_RESET := [ESC] + "[0m"

  predicate InRange(c: char, low: char, high: char) {
    low <= c <= high
  }

  /** The end of the run of characters between `low` and `high` that begins at `i`. */
  function RunEnd(s: string, i: nat, low: char, high: char): (end: nat)
    requires i <= |s|
    ensures i <= end <= |s|
    decreases |s| - i
  {
    if i < |s| && InRange(s[i], low, high) then RunEnd(s, i + 1, low, high) else i
  }

  /** The end of a control sequence whose parameters begin at `i`, or 0 when it is not terminated. */
  function ControlEnd(s: string, i: nat): (end: nat)
    requires i <= |s|
    ensures end != 0 ==> i < end <= |s|
  {
    var final := RunEnd(s, RunEnd(s, i, '0', '?'), ' ', '/');
    if final < |s| && InRange(s[final], '@', '~') then final + 1 else 0
  }

  /** The length of the escape sequence at the start of `s`, 0 when there is none. */
  function EscapeLength(s: string): (n: nat)
    ensures n <= |s|
  {
    if |s| >= 2 && s[0] == ESC && (InRange(s[1], '@', 'Z') || InRange(s[1], '\\', '_')) then 2
    else if |s| >= 1 && (InRange(s[0], '\U{80}', '\U{9A}') || InRange(s[0], '\U{9C}', '\U{9F}')) then 1
    else if |s| >= 2 && s[0] == ESC && s[1] == '[' then ControlEnd(s, 2)
    else if |s| >= 1 && s[0] == CSI then ControlEnd(s, 1)
    else 0
  }

  /** `ANSI_ESCAPE.sub("", s)` */
  function StripAnsi(s: string): string
    decreases |s|
  {
    if s == "" then ""
    else
      var n := EscapeLength(s);
      if n > 0 then StripAnsi(s[n..]) else [s[0]] + StripAnsi(s[1..])
  }

  // The regular expression, and that the matcher finds its one match

  predicate AllInRange(s: string, from: nat, to: nat, low: char, high: char)
    requires from <= to <= |s|
  {
    forall k | from <= k < to :: InRange(s[k], low, high)
  }

  /** `[0-?]*[ -/]*[@-~]` as the text between `start` and `end`. */
  ghost predicate ControlBody(s: string, start: nat, end: nat) {
    exists i: nat, j: nat :: ControlParts(s, start, i, j, end)
  }

  predicate ControlParts(s: string, start: nat, i: nat, j: nat, end: nat) {
    && start <= i <= j < |s| && end == j + 1
    && AllInRange(s, start, i, '0', '?') && AllInRange(s, i, j, ' ', '/') && InRange(s[j], '@', '~')
  }

  /** The first `n` characters of `s` form one word of the expression `ANSI_ESCAPE`. */
  ghost predicate EscapeWord(s: string, n: nat)
    requires n <= |s|
  {
    || (n == 2 && s[0] == '\U{1B}' && (InRange(s[1], '@', 'Z') || InRange(s[1], '\\', '_')))
    || (n == 1 && (InRange(s[0], '\U{80}', '\U{9A}') || InRange(s[0], '\U{9C}', '\U{9F}')))
    || (n > 2 && s[0] == '\U{1B}' && s[1] == '[' && ControlBody(s, 2, n))
    || (n > 1 && s[0] == '\U{9B}' && ControlBody(s, 1, n))
  }

  lemma {:induction false} RunEndIs(s: string, i: nat, end: nat, low: char, high: char)
    requires i <= end <= |s| && AllInRange(s, i, end, low, high)
    requires end < |s| ==> !InRange(s[end], low, high)
    ensures RunEnd(s, i, low, high) == end
    decreases end - i
  {
    if i < end {
      RunEndIs(s, i + 1, end, low, high);
    }
  }

  lemma {:induction false} RunIsInRange(s: string, i: nat, low: char, high: char)
    requires i <= |s|
    ensures AllInRange(s, i, RunEnd(s, i, low, high), low, high)
    decreases |s| - i
  {
    if i < |s| && InRange(s[i], low, high) {
      RunIsInRange(s, i + 1, low, high);
    }
  }

  lemma ControlEndMatches(s: string, start: nat, end: nat)
    requires start <= |s| && end != 0
    ensures ControlEnd(s, start) == end <==> ControlBody(s, start, end)
  {
    var i := RunEnd(s, start, '0', '?');
    var j := RunEnd(s, i, ' ', '/');
    RunIsInRange(s, start, '0', '?');
    RunIsInRange(s, i, ' ', '/');
    assert ControlEnd(s, start) == end ==> ControlParts(s, start, i, j, end);
    if i: nat, j: nat :| ControlParts(s, start, i, j, end) {
      assert j == i || InRange(s[i], ' ', '/');
      RunEndIs(s, start, i, '0', '?');
      RunEndIs(s, i, j, ' ', '/');
    }
  }

  /** The matcher finds a word of the expression whenever there is one, and there is never another. */
  lemma EscapeIsTheWord(s: string, n: nat)
    requires 0 < n <= |s|
    ensures EscapeLength(s) == n <==> EscapeWord(s, n)
  {
    hide ControlEnd, ControlBody;
    if |s| >= 2 {
      ControlEndMatches(s, 2, n);
    }
    ControlEndMatches(s, 1, n);
  }

  // Substitution: a text is scanned from the left into words and single characters

  datatype Piece = Word(text: string) | Plain(single: char)

  function TextOf(pieces: seq<Piece>): string {
    if pieces == [] then ""
    else (if pieces[0].Word? then pieces[0].text else [pieces[0].single]) + TextOf(pieces[1..])
  }

  function PlainOf(pieces: seq<Piece>): string {
    if pieces == [] then ""
    else (if pieces[0].Word? then "" else [pieces[0].single]) + PlainOf(pieces[1..])
  }

  /** Each piece is the word at the start of the rest of the text if there is one, and else its first character. */
  ghost predicate Scanned(pieces: seq<Piece>) {
    pieces == [] ||
    (var rest := TextOf(pieces);
     (match pieces[0]
      case Word(w) => 0 < |w| <= |rest| && EscapeWord(rest, |w|)
      case Plain(_) => forall n | 0 < n <= |rest| :: !EscapeWord(rest, n)) &&
     Scanned(pieces[1..]))
  }

  /** `ANSI_ESCAPE.sub("", s)` removes the words that a scan from the left finds, and nothing else. */
  lemma {:induction false} StripRemovesTheWords(s: string) returns (pieces: seq<Piece>)
    ensures Scanned(pieces) && TextOf(pieces) == s && StripAnsi(s) == PlainOf(pieces)
    decreases |s|
  {
    hide EscapeWord;
    pieces := [];
    if s != "" {
      var n := EscapeLength(s);
      forall k | 0 < k <= |s|
        ensures EscapeWord(s, k) <==> k == n
      {
        EscapeIsTheWord(s, k);
      }
      var rest := StripRemovesTheWords(s[if n > 0 then n else 1..]);
      pieces := [if n > 0 then Word(s[..n]) else Plain(s[0])] + rest;
      assert pieces[1..] == rest;
      assert s == (if n > 0 then s[..n] else [s[0]]) + s[if n > 0 then n else 1..];
    }
  }

  predicate Fits(p: Piece, n: nat) {
    if p.Word? then |p.text| == n > 0 else n == 0
  }

  lemma FirstPieceFits(pieces: seq<Piece>)
    requires Scanned(pieces) && pieces != []
    ensures Fits(pieces[0], EscapeLength(TextOf(pieces)))
  {
    hide EscapeWord, EscapeLength;
    var s := TextOf(pieces);
    var n := EscapeLength(s);
    if pieces[0].Word? {
      EscapeIsTheWord(s, |pieces[0].text|);
    } else if n > 0 {
      EscapeIsTheWord(s, n);
    }
  }

  /** There is only one such scan. */
  lemma {:induction false} ScanIsUnique(a: seq<Piece>, b: seq<Piece>)
    requires Scanned(a) && Scanned(b) && TextOf(a) == TextOf(b)
    ensures a == b
  {
    hide EscapeWord;
    if a != [] && b != [] {
      FirstPieceFits(a);
      FirstPieceFits(b);
      SameFirstPiece(a, b, EscapeLength(TextOf(a)));
      ScanIsUnique(a[1..], b[1..]);
      assert a == [a[0]] + a[1..] && b == [b[0]] + b[1..];
    }
  }

  lemma SameFirstPiece(a: seq<Piece>, b: seq<Piece>, n: nat)
    requires a != [] && b != [] && TextOf(a) == TextOf(b)
    requires Fits(a[0], n) && Fits(b[0], n)
    ensures a[0] == b[0] && TextOf(a[1..]) == TextOf(b[1..])
  {
    var s := TextOf(a);
    if n > 0 {
      assert s[..n] == a[0].text && s[..n] == b[0].text;
      assert s[n..] == TextOf(a[1..]) && s[n..] == TextOf(b[1..]);
    } else {
      assert s[0] == a[0].single && s[0] == b[0].single;
      assert s[1..] == TextOf(a[1..]) && s[1..] == TextOf(b[1..]);
    }
  }

  /** `str.isspace` for one character. */
  predicate IsSpace(c: char) {
    || InRange(c, '\U{09}', '\U{0D}') || InRange(c, '\U{1C}', ' ') || c == '\U{85}' || c == '\U{A0}'
    || c == '\U{1680}' || InRange(c, '\U{2000}', '\U{200A}') || c == '\U{2028}' || c == '\U{2029}'
    || c == '\U{202F}' || c == '\U{205F}' || c == '\U{3000}'
  }

  /** `not s.strip()` */
  predicate IsBlank(s: string) {
    forall i | 0 <= i < |s| :: IsSpace(s[i])
  }

  predicate StartsWithSpace(s: string) {
    s != "" && IsSpace(s[0])
  }

  /** `s.rstrip("\n\r")` */
  function TrimLineEnd(s: string): string {
    if s != "" && (s[|s| - 1] == '\n' || s[|s| - 1] == '\r') then TrimLineEnd(s[..|s| - 1]) else s
  }

  /** `rstrip` removes the line ends at the end, all of them and nothing else. */
  lemma {:induction false} TrimsLineEnds(s: string)
    ensures var t := TrimLineEnd(s);
            && t <= s && (forall i | |t| <= i < |s| :: s[i] in "\r\n")
            && (t != "" ==> t[|t| - 1] !in "\r\n")
  {
    if s != "" && (s[|s| - 1] == '\n' || s[|s| - 1] == '\r') {
      TrimsLineEnds(s[..|s| - 1]);
    }
  }

  const CONTROL_SPACES := "\t\n\U{0B}\U{0C}\r\U{1C}\U{1D}\U{1E}\U{1F} "
  const WIDE_SPACES :=
    "\U{2000}\U{2001}\U{2002}\U{2003}\U{2004}\U{2005}\U{2006}\U{2007}\U{2008}\U{2009}\U{200A}"
  const OTHER_SPACES := "\U{85}\U{A0}\U{1680}\U{2028}\U{2029}\U{202F}\U{205F}\U{3000}"

  /** All characters that Python calls white space. */
  lemma AllSpaces(c: char)
    ensures IsSpace(c) <==> c in CONTROL_SPACES || c in WIDE_SPACES || c in OTHER_SPACES
  {
    ControlSpaces(c);
    WideSpaces(c);
    OtherSpaces(c);
  }

  lemma ControlSpaces(c: char)
    ensures c in CONTROL_SPACES <==> '\t' <= c <= '\r' || '\U{1C}' <= c <= ' '
  {
    assert '\t' <= c <= '\r' ==> CONTROL_SPACES[c as int - 9] == c;
    assert '\U{1C}' <= c <= ' ' ==> CONTROL_SPACES[c as int - 23] == c;
  }

  lemma WideSpaces(c: char)
    ensures c in WIDE_SPACES <==> '\U{2000}' <= c <= '\U{200A}'
  {
    assert '\U{2000}' <= c <= '\U{200A}' ==> WIDE_SPACES[c as int - 0x2000] == c;
  }

  lemma OtherSpaces(c: char)
    ensures c in OTHER_SPACES <==>
              || c == '\U{85}' || c == '\U{A0}' || c == '\U{1680}' || c == '\U{2028}' || c == '\U{2029}'
              || c == '\U{202F}' || c == '\U{205F}' || c == '\U{3000}'
  {
  }

  // Lines

  predicate OneLine(s: string) {
    forall i | 0 <= i < |s| :: s[i] != '\n'
  }

  /** `s.split("\n")` */
  function Split(s: string): (lines: seq<string>)
    ensures lines != []
  {
    if s == "" then [""]
    else
      var rest := Split(s[1..]);
      if s[0] == '\n' then [""] + rest else [[s[0]] + rest[0]] + rest[1..]
  }

  function Join(lines: seq<string>): string
    requires lines != []
  {
    if |lines| == 1 then lines[0] else lines[0] + "\n" + Join(lines[1..])
  }

  lemma {:induction false} SplitJoins(s: string)
    ensures Join(Split(s)) == s
    decreases |s|
  {
    if s != "" {
      SplitJoins(s[1..]);
      var rest := Split(s[1..]);
      if s[0] == '\n' {
        assert Split(s)[1..] == rest;
        assert s == "" + "\n" + s[1..];
      } else {
        assert Split(s)[1..] == rest[1..];
        assert s == [s[0]] + s[1..];
      }
    }
  }

  lemma {:induction false} SplitIntoLines(s: string)
    ensures forall k | 0 <= k < |Split(s)| :: OneLine(Split(s)[k])
    decreases |s|
  {
    if s != "" {
      SplitIntoLines(s[1..]);
      var rest := Split(s[1..]);
      assert s[0] != '\n' ==> OneLine([s[0]] + rest[0]);
    }
  }

  lemma {:induction false} SplitOneLine(s: string)
    requires OneLine(s)
    ensures Split(s) == [s]
    decreases |s|
  {
    if s != "" {
      SplitOneLine(s[1..]);
      assert s[0] != '\n';
      assert [s[0]] + s[1..] == s;
    }
  }

  lemma {:induction false} SplitAfterLine(line: string, rest: string)
    requires OneLine(line)
    ensures Split(line + "\n" + rest) == [line] + Split(rest)
    decreases |line|
  {
    var s := line + "\n" + rest;
    if line == "" {
      assert s[1..] == rest;
    } else {
      assert s[1..] == line[1..] + "\n" + rest;
      SplitAfterLine(line[1..], rest);
      assert line[0] != '\n' && [line[0]] + line[1..] == line;
    }
  }

  // Stripping works line by line: no part of an escape sequence is a newline

  lemma {:induction false} RunEndBefore(a: string, b: string, i: nat, low: char, high: char)
    requires i <= |a| && '\n' < low
    ensures RunEnd(a + "\n" + b, i, low, high) == RunEnd(a, i, low, high)
    decreases |a| - i
  {
    if i < |a| {
      RunEndBefore(a, b, i + 1, low, high);
    }
  }

  lemma EscapeBefore(a: string, b: string)
    requires a != ""
    ensures EscapeLength(a + "\n" + b) == EscapeLength(a)
  {
    forall i: nat | i <= |a|
      ensures ControlEnd(a + "\n" + b, i) == ControlEnd(a, i)
    {
      RunEndBefore(a, b, i, '0', '?');
      RunEndBefore(a, b, RunEnd(a, i, '0', '?'), ' ', '/');
    }
  }

  lemma NewlineIsNoEscape(s: string)
    requires s != "" && s[0] == '\n'
    ensures EscapeLength(s) == 0
  {
  }

  lemma {:induction false} StripByLine(a: string, b: string)
    ensures StripAnsi(a + "\n" + b) == StripAnsi(a) + "\n" + StripAnsi(b)
    decreases |a|
  {
    hide EscapeLength;
    var s := a + "\n" + b;
    if a == "" {
      NewlineIsNoEscape(s);
      assert s[1..] == b;
    } else {
      EscapeBefore(a, b);
      var n := EscapeLength(a);
      if n > 0 {
        assert s[n..] == a[n..] + "\n" + b;
        StripByLine(a[n..], b);
      } else {
        assert s[1..] == a[1..] + "\n" + b;
        StripByLine(a[1..], b);
      }
    }
  }

  lemma {:induction false} StripKeepsOneLine(s: string)
    requires OneLine(s)
    ensures OneLine(StripAnsi(s))
    decreases |s|
  {
    if s != "" {
      var n := EscapeLength(s);
      StripKeepsOneLine(s[if n > 0 then n else 1..]);
    }
  }

  function StripLines(lines: seq<string>): seq<string> {
    seq(|lines|, k requires 0 <= k < |lines| => StripAnsi(lines[k]))
  }

  lemma {:induction false} StripJoin(lines: seq<string>)
    requires lines != [] && forall k | 0 <= k < |lines| :: OneLine(lines[k])
    ensures Split(StripAnsi(Join(lines))) == StripLines(lines)
    decreases |lines|
  {
    StripKeepsOneLine(lines[0]);
    if |lines| == 1 {
      SplitOneLine(StripAnsi(lines[0]));
    } else {
      StripByLine(lines[0], Join(lines[1..]));
      SplitAfterLine(StripAnsi(lines[0]), StripAnsi(Join(lines[1..])));
      StripJoin(lines[1..]);
    }
  }

  /** Stripping and then splitting is splitting and then stripping every line. */
  lemma SplitOfStripped(text: string)
    ensures Split(StripAnsi(text)) == StripLines(Split(text))
  {
    SplitJoins(text);
    SplitIntoLines(text);
    StripJoin(Split(text));
  }
}
