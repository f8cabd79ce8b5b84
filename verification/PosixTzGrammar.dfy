/**
 The grammar of TZ strings with its rendering and meaning, and the two directions that connect it to
 the parser: what is rendered is parsed back, and what is parsed was rendered.
 */
module PosixTzGrammar {
  import opened Wrappers
  import opened PosixTz

  datatype Sign = NoSign | Plus | Minus

  /** [+-]hh[:mm[:ss]]; an absent part is empty. */
  datatype OffsetText = OffsetText(sign: Sign, hours: string, minutes: string, seconds: string)

  datatype RuleBody =
    | MText(letter: char, month: string, week: string, weekday: string)
    | JText(letter: char, day: string)
    | NText(day: string)

  datatype RuleText = RuleText(body: RuleBody, time: Option<OffsetText>)

  datatype DstText =
    | NoDst
    | DstName(name: string, offset: Option<OffsetText>)
    | DstRules(name: string, offset: Option<OffsetText>, start: RuleText, end: RuleText)

  datatype TzText = TzText(name: string, offset: OffsetText, dst: DstText)

  // Well-formed texts

  predicate Numeral(t: string) {
    t != "" && AllDigits(t)
  }

  predicate NumeralIn(t: string, low: nat, high: nat) {
    Numeral(t) && low <= Number(t) <= high
  }

  /** Three or more letters, or anything between angle brackets. */
  predicate Name(t: string) {
    || (|t| >= 3 && forall i | 0 <= i < |t| :: IsAlpha(t[i]))
    || (|t| >= 2 && t[0] == '<' && t[|t| - 1] == '>' && forall i | 0 < i < |t| - 1 :: t[i] != '>')
  }

  predicate GoodOffset(o: OffsetText) {
    Numeral(o.hours) && (o.minutes != "" ==> Numeral(o.minutes)) &&
    (o.seconds != "" ==> Numeral(o.seconds) && o.minutes != "")
  }

  predicate GoodBody(b: RuleBody) {
    match b
    case MText(c, month, week, day) =>
      (c == 'M' || c == 'm') && NumeralIn(month, 1, 12) && NumeralIn(week, 1, 5) && NumeralIn(day, 0, 6)
    case JText(c, day) => (c == 'J' || c == 'j') && NumeralIn(day, 1, 365)
    case NText(day) => NumeralIn(day, 0, 365)
  }

  predicate GoodRule(r: RuleText) {
    GoodBody(r.body) && (r.time.Some? ==> GoodOffset(r.time.value))
  }

  predicate GoodDst(d: DstText) {
    match d
    case NoDst => true
    case DstName(name, offset) => Name(name) && (offset.Some? ==> GoodOffset(offset.value))
    case DstRules(name, offset, start, end) =>
      Name(name) && (offset.Some? ==> GoodOffset(offset.value)) && GoodRule(start) && GoodRule(end)
  }

  predicate Good(t: TzText) {
    Name(t.name) && GoodOffset(t.offset) && GoodDst(t.dst)
  }

  // Rendering

  function RenderSign(s: Sign): string {
    match s
    case NoSign => ""
    case Plus => "+"
    case Minus => "-"
  }

  function RenderPart(t: string): string {
    if t == "" then "" else ":" + t
  }

  function RenderOffset(o: OffsetText): string {
    RenderSign(o.sign) + (o.hours + (RenderPart(o.minutes) + RenderPart(o.seconds)))
  }

  function RenderBody(b: RuleBody): string {
    match b
    case MText(c, month, week, day) => [c] + (month + ("." + (week + ("." + day))))
    case JText(c, day) => [c] + day
    case NText(day) => day
  }

  function RenderTime(t: Option<OffsetText>): string {
    if t.None? then "" else "/" + RenderOffset(t.value)
  }

  function RenderRule(r: RuleText): string {
    RenderBody(r.body) + RenderTime(r.time)
  }

  function RenderOptional(o: Option<OffsetText>): string {
    if o.None? then "" else RenderOffset(o.value)
  }

  function RenderDst(d: DstText): string {
    match d
    case NoDst => ""
    case DstName(name, offset) => name + RenderOptional(offset)
    case DstRules(name, offset, start, end) =>
      name + (RenderOptional(offset) + ("," + (RenderRule(start) + ("," + RenderRule(end)))))
  }

  function Render(t: TzText): string {
    t.name + (RenderOffset(t.offset) + RenderDst(t.dst))
  }

  // Meaning

  function Digit(c: char): nat {
    match c
    case '1' => 1
    case '2' => 2
    case '3' => 3
    case '4' => 4
    case '5' => 5
    case '6' => 6
    case '7' => 7
    case '8' => 8
    case '9' => 9
    case _ => 0
  }

  function PowerOfTen(n: nat): nat {
    if n == 0 then 1 else 10 * PowerOfTen(n - 1)
  }

  /** The number that a row of digits stands for: each digit times the power of ten of its place. */
  function Number(t: string): nat {
    if t == "" then 0 else Digit(t[0]) * PowerOfTen(|t| - 1) + Number(t[1..])
  }

  function PartValue(t: string): nat
    requires t != "" ==> Numeral(t)
  {
    if t == "" then 0 else Number(t)
  }

  function OffsetSeconds(o: OffsetText): int
    requires GoodOffset(o)
  {
    if o.sign == Minus then 0 - Magnitude(o) else Magnitude(o)
  }

  function Magnitude(o: OffsetText): nat
    requires GoodOffset(o)
  {
    Number(o.hours) * 3600 + PartValue(o.minutes) * 60 + PartValue(o.seconds)
  }

  function BodyMeaning(b: RuleBody): DstRule
    requires GoodBody(b)
  {
    match b
    case MText(_, month, week, day) => DstRule(0, 0, MonthWeekDay, Number(month), Number(week), Number(day))
    case JText(_, day) => DstRule(0, Number(day), JulianNoLeap, 0, 0, 0)
    case NText(day) => DstRule(0, Number(day), DayOfYear, 0, 0, 0)
  }

  /** A missing time is two in the morning. */
  function RuleMeaning(r: RuleText): DstRule
    requires GoodRule(r)
  {
    BodyMeaning(r.body).(timeSeconds := if r.time.None? then 7200 else OffsetSeconds(r.time.value))
  }

  /** A missing DST offset is the standard offset minus an hour. */
  function DstSeconds(o: Option<OffsetText>, std: int): int
    requires o.Some? ==> GoodOffset(o.value)
  {
    if o.None? then std - 3600 else OffsetSeconds(o.value)
  }

  function DstMeaning(d: DstText, std: int): ParsedTimezone
    requires GoodDst(d)
  {
    match d
    case NoDst => ParsedTimezone(std, 0, DstRule(0, 0, NoRule, 0, 0, 0), DstRule(0, 0, NoRule, 0, 0, 0))
    case DstName(_, offset) =>
      ParsedTimezone(std, DstSeconds(offset, std), DstRule(0, 0, NoRule, 0, 0, 0), DstRule(0, 0, NoRule, 0, 0, 0))
    case DstRules(_, offset, start, end) =>
      ParsedTimezone(std, DstSeconds(offset, std), RuleMeaning(start), RuleMeaning(end))
  }

  function Meaning(t: TzText): ParsedTimezone
    requires Good(t)
  {
    DstMeaning(t.dst, OffsetSeconds(t.offset))
  }

  // What may follow a text without being taken for a part of it

  predicate EndsOffset(s: string, pos: nat, o: OffsetText) {
    !DigitAt(s, pos) && (o.seconds == "" ==> !CharAt(s, pos, ':'))
  }

  predicate EndsRule(s: string, pos: nat, r: RuleText) {
    match r.time
    case None => !DigitAt(s, pos) && !CharAt(s, pos, '/')
    case Some(o) => EndsOffset(s, pos, o)
  }

  predicate EndsName(s: string, pos: nat, name: string) {
    name != "" && name[0] != '<' ==> !AlphaAt(s, pos)
  }

  predicate EndsDstOffset(s: string, pos: nat, name: string, o: Option<OffsetText>) {
    match o
    case None => EndsName(s, pos, name) && !DigitAt(s, pos) && !SignAt(s, pos)
    case Some(offset) => EndsOffset(s, pos, offset)
  }

  predicate Ends(s: string, pos: nat, t: TzText) {
    match t.dst
    case NoDst =>
      EndsOffset(s, pos, t.offset) && !CharAt(s, pos, ',') && !AlphaAt(s, pos) && !CharAt(s, pos, '<')
    case DstName(name, offset) => EndsDstOffset(s, pos, name, offset) && !CharAt(s, pos, ',')
    case DstRules(_, _, _, end) => EndsRule(s, pos, end)
  }

  // Texts inside a string

  predicate Matches(s: string, pos: nat, t: string) {
    pos + |t| <= |s| && forall i | 0 <= i < |t| :: s[pos + i] == t[i]
  }

  lemma MatchesBoth(s: string, pos: nat, a: string, b: string)
    ensures Matches(s, pos, a + b) <==> Matches(s, pos, a) && Matches(s, pos + |a|, b)
  {
    var t := a + b;
    assert forall i | 0 <= i < |a| :: t[i] == a[i];
    assert forall i | 0 <= i < |b| :: t[|a| + i] == b[i];
    if Matches(s, pos, a) && Matches(s, pos + |a|, b) {
      forall i | 0 <= i < |t|
        ensures s[pos + i] == t[i]
      {
        assert i >= |a| ==> s[pos + |a| + (i - |a|)] == b[i - |a|];
      }
    }
    if Matches(s, pos, t) {
      forall i | 0 <= i < |b|
        ensures s[pos + |a| + i] == b[i]
      {
        assert s[pos + (|a| + i)] == t[|a| + i];
      }
    }
  }

  lemma MatchesChar(s: string, pos: nat, c: char)
    ensures Matches(s, pos, [c]) <==> CharAt(s, pos, c)
  {
    assert CharAt(s, pos, c) ==> s[pos + 0] == [c][0];
    assert Matches(s, pos, [c]) ==> s[pos + 0] == [c][0];
  }

  lemma MatchesSlice(s: string, pos: nat, t: string)
    ensures Matches(s, pos, t) <==> pos + |t| <= |s| && s[pos..pos + |t|] == t
    ensures Matches(s, pos, t) ==> forall i | pos <= i < pos + |t| :: s[i] == t[i - pos]
  {
    if pos + |t| <= |s| {
      var part := s[pos..pos + |t|];
      assert forall i | 0 <= i < |t| :: part[i] == s[pos + i];
    }
  }

  // From the text to the parse

  lemma {:induction false} DigitsEndAt(s: string, pos: nat, end: nat)
    requires pos <= end <= |s| && !DigitAt(s, end)
    requires forall i | pos <= i < end :: IsDigit(s[i])
    ensures DigitsEnd(s, pos) == end
    decreases end - pos
  {
    if pos < end {
      DigitsEndAt(s, pos + 1, end);
    }
  }

  /** The digits are those of ASCII. */
  lemma AsciiDigits(c: char)
    ensures IsDigit(c) <==> c in "0123456789"
  {
    var digits := "0123456789";
    assert IsDigit(c) ==> digits[c as int - 48] == c;
  }

  /** And so are the letters. */
  lemma AsciiLetters(c: char)
    ensures IsAlpha(c) <==> c in "ABCDEFGHIJKLMNOPQRSTUVWXYZ" || c in "abcdefghijklmnopqrstuvwxyz"
  {
    Capitals(c);
    SmallLetters(c);
  }

  lemma Capitals(c: char)
    ensures c in "ABCDEFGHIJKLMNOPQRSTUVWXYZ" <==> 'A' <= c <= 'Z'
  {
    var upper := "ABCDEFGHIJKLMNOPQRSTUVWXYZ";
    assert 'A' <= c <= 'Z' ==> upper[c as int - 65] == c;
  }

  lemma SmallLetters(c: char)
    ensures c in "abcdefghijklmnopqrstuvwxyz" <==> 'a' <= c <= 'z'
  {
    var lower := "abcdefghijklmnopqrstuvwxyz";
    assert 'a' <= c <= 'z' ==> lower[c as int - 97] == c;
  }

  lemma {:induction false} NumberSnoc(t: string, c: char)
    ensures Number(t + [c]) == Number(t) * 10 + Digit(c)
    decreases |t|
  {
    if t == "" {
      assert [c][1..] == "";
      assert t + [c] == [c];
    } else {
      assert (t + [c])[1..] == t[1..] + [c];
      NumberSnoc(t[1..], c);
      assert PowerOfTen(|t|) == 10 * PowerOfTen(|t| - 1);
    }
  }

  lemma {:induction false} NumberIsValue(t: string)
    requires AllDigits(t)
    ensures Number(t) == Value(t)
  {
    if t != "" {
      var last := |t| - 1;
      NumberIsValue(t[..last]);
      NumberSnoc(t[..last], t[last]);
      assert t[..last] + [t[last]] == t;
    }
  }

  /** How a number is written. */
  function Decimal(n: nat): (t: string)
    ensures t != ""
  {
    (if n < 10 then "" else Decimal(n / 10)) + ["0123456789"[n % 10]]
  }

  lemma {:induction false} DecimalIsNumeral(n: nat)
    ensures Numeral(Decimal(n)) && Number(Decimal(n)) == n
  {
    var last := "0123456789"[n % 10];
    assert IsDigit(last) && Digit(last) == n % 10;
    if n < 10 {
      NumberSnoc("", last);
      assert Decimal(n) == "" + [last];
    } else {
      DecimalIsNumeral(n / 10);
      NumberSnoc(Decimal(n / 10), last);
    }
  }

  /** Every number, written in decimal, is parsed back, up to the first character that is not a digit. */
  lemma DecimalIsParsed(n: nat, rest: string)
    requires rest == "" || rest[0] !in "0123456789"
    ensures ParseUint(Decimal(n) + rest, 0) == At(n, |Decimal(n)|)
  {
    var s := Decimal(n) + rest;
    DecimalIsNumeral(n);
    if rest != "" {
      AsciiDigits(rest[0]);
      assert s[|Decimal(n)|] == rest[0];
    }
    NumeralParses(s, 0, Decimal(n));
  }

  lemma NumeralParses(s: string, pos: nat, t: string)
    requires Numeral(t) && Matches(s, pos, t) && !DigitAt(s, pos + |t|)
    ensures ParseUint(s, pos) == At(Number(t), pos + |t|)
  {
    MatchesSlice(s, pos, t);
    DigitsEndAt(s, pos, pos + |t|);
    NumberIsValue(t);
  }

  lemma NumeralParsesBeforeDot(s: string, pos: nat, t: string)
    requires Numeral(t) && Matches(s, pos, t) && CharAt(s, pos + |t|, '.')
    ensures ParseUint(s, pos) == At(Number(t), pos + |t|)
  {
    NumeralParses(s, pos, t);
  }

  lemma {:induction false} LettersEndAt(s: string, pos: nat, end: nat)
    requires pos <= end <= |s| && !AlphaAt(s, end)
    requires forall i | pos <= i < end :: IsAlpha(s[i])
    ensures LettersEnd(s, pos) == end
    decreases end - pos
  {
    if pos < end {
      LettersEndAt(s, pos + 1, end);
    }
  }

  lemma {:induction false} BracketEndAt(s: string, pos: nat, end: nat)
    requires pos <= end < |s| && s[end] == '>'
    requires forall i | pos <= i < end :: s[i] != '>'
    ensures BracketEnd(s, pos) == end
    decreases end - pos
  {
    if pos < end {
      BracketEndAt(s, pos + 1, end);
    }
  }

  lemma NameParses(s: string, pos: nat, t: string)
    requires Name(t) && Matches(s, pos, t) && EndsName(s, pos + |t|, t) && pos < |s|
    ensures SkipTzName(s, pos) == At((), pos + |t|)
  {
    MatchesSlice(s, pos, t);
    if t[0] == '<' {
      BracketEndAt(s, pos + 1, pos + |t| - 1);
    } else {
      LettersEndAt(s, pos, pos + |t|);
    }
  }

  lemma NumeralStarts(s: string, pos: nat, t: string)
    requires Numeral(t) && Matches(s, pos, t)
    ensures DigitAt(s, pos) && !SignAt(s, pos)
  {
    assert s[pos + 0] == t[0];
  }

  /** The parts of an offset after the hours, at their places. */
  lemma OffsetMatches(s: string, pos: nat, o: OffsetText)
    requires GoodOffset(o) && Matches(s, pos, RenderOffset(o))
    ensures var p0 := pos + |RenderSign(o.sign)|;
            var p1 := p0 + |o.hours|;
            var p2 := p1 + |RenderPart(o.minutes)|;
            && Matches(s, pos, RenderSign(o.sign)) && Matches(s, p0, o.hours)
            && Matches(s, p1, RenderPart(o.minutes)) && Matches(s, p2, RenderPart(o.seconds))
            && pos + |RenderOffset(o)| == p2 + |RenderPart(o.seconds)| <= |s|
  {
    hide Matches, GoodOffset;
    var parts := RenderPart(o.minutes) + RenderPart(o.seconds);
    var p0 := pos + |RenderSign(o.sign)|;
    MatchesBoth(s, pos, RenderSign(o.sign), o.hours + parts);
    MatchesBoth(s, p0, o.hours, parts);
    MatchesBoth(s, p0 + |o.hours|, RenderPart(o.minutes), RenderPart(o.seconds));
    MatchesFits(s, pos, RenderOffset(o));
  }

  lemma MatchesFits(s: string, pos: nat, t: string)
    requires Matches(s, pos, t)
    ensures pos + |t| <= |s|
  {
  }

  lemma SignParses(s: string, pos: nat, sign: Sign)
    requires Matches(s, pos, RenderSign(sign)) && DigitAt(s, pos + |RenderSign(sign)|)
    ensures CharAt(s, pos, '-') <==> sign == Minus
    ensures SignAt(s, pos) <==> sign != NoSign
  {
    if sign != NoSign {
      assert s[pos + 0] == RenderSign(sign)[0];
    }
  }

  /** ":" and a numeral, or nothing where no ':' follows. */
  lemma PartParses(s: string, pos: nat, t: string)
    requires (t != "" ==> Numeral(t)) && Matches(s, pos, RenderPart(t))
    requires t != "" ==> !DigitAt(s, pos + |RenderPart(t)|)
    ensures t != "" ==> CharAt(s, pos, ':') && ParseUint(s, pos + 1) == At(Number(t), pos + |RenderPart(t)|)
  {
    if t != "" {
      MatchesBoth(s, pos, ":", t);
      MatchesChar(s, pos, ':');
      NumeralParses(s, pos + 1, t);
    }
  }

  lemma PartIsNoDigit(s: string, pos: nat, t: string)
    requires Matches(s, pos, RenderPart(t))
    requires t == "" ==> !DigitAt(s, pos)
    ensures !DigitAt(s, pos)
  {
    if t != "" {
      assert s[pos + 0] == RenderPart(t)[0] == ':';
    }
  }

  /** A sign and the hours. */
  lemma HoursParse(s: string, pos: nat, sign: Sign, hours: string)
    requires var p0 := pos + |RenderSign(sign)|;
             && Numeral(hours) && Matches(s, pos, RenderSign(sign)) && Matches(s, p0, hours)
             && !DigitAt(s, p0 + |hours|)
    ensures pos + |RenderSign(sign)| == if SignAt(s, pos) then pos + 1 else pos
    ensures CharAt(s, pos, '-') <==> sign == Minus
    ensures ParseUint(s, pos + |RenderSign(sign)|) == At(Number(hours), pos + |RenderSign(sign)| + |hours|)
    ensures DigitAt(s, pos) || SignAt(s, pos)
  {
    hide Matches, AllDigits, Number, ParseUint;
    var p0 := pos + |RenderSign(sign)|;
    NumeralStarts(s, p0, hours);
    SignParses(s, pos, sign);
    NumeralParses(s, p0, hours);
  }

  /** The minutes and the seconds, if any. */
  lemma PartsParse(s: string, pos: nat, minutes: string, seconds: string)
    requires (minutes != "" ==> Numeral(minutes)) && (seconds != "" ==> Numeral(seconds) && minutes != "")
    requires var p2 := pos + |RenderPart(minutes)|;
             var end := p2 + |RenderPart(seconds)|;
             && Matches(s, pos, RenderPart(minutes)) && Matches(s, p2, RenderPart(seconds)) && end <= |s|
             && !DigitAt(s, end) && (seconds == "" ==> !CharAt(s, end, ':'))
    ensures var p2 := pos + |RenderPart(minutes)|;
            && !DigitAt(s, pos) && (CharAt(s, pos, ':') <==> minutes != "")
            && (minutes != "" ==> ParseUint(s, pos + 1) == At(Number(minutes), p2))
            && (minutes != "" ==> (CharAt(s, p2, ':') <==> seconds != ""))
            && (seconds != "" ==> ParseUint(s, p2 + 1) == At(Number(seconds), p2 + |RenderPart(seconds)|))
  {
    hide Matches, AllDigits, Number, ParseUint, DigitAt, CharAt;
    var p2 := pos + |RenderPart(minutes)|;
    PartIsNoDigit(s, p2, seconds);
    PartIsNoDigit(s, pos, minutes);
    PartParses(s, pos, minutes);
    PartParses(s, p2, seconds);
  }

  lemma OffsetParses(s: string, pos: nat, o: OffsetText)
    requires GoodOffset(o) && Matches(s, pos, RenderOffset(o)) && EndsOffset(s, pos + |RenderOffset(o)|, o)
    ensures ParseOffset(s, pos) == At(OffsetSeconds(o), pos + |RenderOffset(o)|)
    ensures DigitAt(s, pos) || SignAt(s, pos)
  {
    hide Matches, AllDigits, Number, ParseUint, DigitAt, CharAt, SignAt, RenderSign, RenderPart, RenderOffset,
         ParseMagnitude, Magnitude, Numeral;
    var p0 := pos + |RenderSign(o.sign)|;
    OffsetMatches(s, pos, o);
    PartsParse(s, p0 + |o.hours|, o.minutes, o.seconds);
    HoursParse(s, pos, o.sign, o.hours);
    MagnitudeParses(s, p0, o);
  }

  /** The numbers of an offset, once each of them is known to be at its place. */
  lemma MagnitudeParses(s: string, pos: nat, o: OffsetText)
    requires GoodOffset(o) && pos <= |s|
    requires var p1 := pos + |o.hours|;
             var p2 := p1 + |RenderPart(o.minutes)|;
             && ParseUint(s, pos) == At(Number(o.hours), p1) && (CharAt(s, p1, ':') <==> o.minutes != "")
             && (o.minutes != "" ==> ParseUint(s, p1 + 1) == At(Number(o.minutes), p2))
             && (o.minutes != "" ==> (CharAt(s, p2, ':') <==> o.seconds != ""))
             && (o.seconds != "" ==> ParseUint(s, p2 + 1) == At(Number(o.seconds), p2 + |RenderPart(o.seconds)|))
    ensures ParseMagnitude(s, pos) ==
            At(Magnitude(o), pos + |o.hours| + |RenderPart(o.minutes)| + |RenderPart(o.seconds)|)
  {
    hide ParseUint, AllDigits, Number, CharAt;
  }

  lemma BodyParses(s: string, pos: nat, b: RuleBody)
    requires GoodBody(b) && Matches(s, pos, RenderBody(b)) && !DigitAt(s, pos + |RenderBody(b)|)
    ensures ParseRuleBody(s, pos) == At(BodyMeaning(b), pos + |RenderBody(b)|)
  {
    hide Matches, AllDigits, Number, ParseUint, ParseRuleM, DigitAt;
    match b
    case NText(day) =>
      NumeralStarts(s, pos, day);
      NumeralParses(s, pos, day);
      DigitIsNoLetter(s, pos);
    case JText(c, day) =>
      MatchesBoth(s, pos, [c], day);
      MatchesChar(s, pos, c);
      NumeralParses(s, pos + 1, day);
    case MText(c, month, week, day) => MBodyParses(s, pos, c, month, week, day);
  }

  lemma DigitIsNoLetter(s: string, pos: nat)
    requires DigitAt(s, pos)
    ensures pos < |s| && IsDigit(s[pos])
  {
  }

  lemma MBodyParses(s: string, pos: nat, c: char, month: string, week: string, day: string)
    requires var b := MText(c, month, week, day);
             GoodBody(b) && Matches(s, pos, RenderBody(b)) && !DigitAt(s, pos + |RenderBody(b)|)
    ensures var b := MText(c, month, week, day);
            CharAt(s, pos, c) && ParseRuleM(s, pos) == At(BodyMeaning(b), pos + |RenderBody(b)|)
  {
    hide Matches, AllDigits, Number, ParseUint, DigitAt, RenderBody;
    MTextLength(s, pos, c, month, week, day);
    MTextParses(s, pos + 1, month, week, day);
  }

  lemma MTextLength(s: string, pos: nat, c: char, month: string, week: string, day: string)
    requires Matches(s, pos, RenderBody(MText(c, month, week, day)))
    ensures |RenderBody(MText(c, month, week, day))| == 3 + |month| + |week| + |day|
    ensures CharAt(s, pos, c) && Matches(s, pos + 1, month + ("." + (week + ("." + day))))
  {
    hide Matches;
    MatchesBoth(s, pos, [c], month + ("." + (week + ("." + day))));
    MatchesChar(s, pos, c);
  }

  lemma MTextMatches(s: string, pos: nat, month: string, week: string, day: string)
    requires Matches(s, pos, month + ("." + (week + ("." + day))))
    ensures var p1 := pos + |month|;
            var p2 := p1 + 1 + |week|;
            && Matches(s, pos, month) && CharAt(s, p1, '.') && Matches(s, p1 + 1, week)
            && CharAt(s, p2, '.') && Matches(s, p2 + 1, day)
  {
    var p1 := pos + |month|;
    var p2 := p1 + 1 + |week|;
    MatchesBoth(s, pos, month, "." + (week + ("." + day)));
    MatchesBoth(s, p1, ".", week + ("." + day));
    MatchesBoth(s, p1 + 1, week, "." + day);
    MatchesBoth(s, p2, ".", day);
    MatchesChar(s, p1, '.');
    MatchesChar(s, p2, '.');
  }

  lemma MTextParses(s: string, pos: nat, month: string, week: string, day: string)
    requires Numeral(month) && Numeral(week) && Numeral(day)
    requires Matches(s, pos, month + ("." + (week + ("." + day))))
    requires !DigitAt(s, pos + |month| + |week| + |day| + 2)
    ensures var p1 := pos + |month|;
            var p2 := p1 + 1 + |week|;
            && ParseUint(s, pos) == At(Number(month), p1) && CharAt(s, p1, '.')
            && ParseUint(s, p1 + 1) == At(Number(week), p2) && CharAt(s, p2, '.')
            && ParseUint(s, p2 + 1) == At(Number(day), p2 + 1 + |day|)
  {
    hide *;
    MTextMatches(s, pos, month, week, day);
    var p1 := pos + |month|;
    var p2 := p1 + 1 + |week|;
    NumeralParsesBeforeDot(s, pos, month);
    NumeralParsesBeforeDot(s, p1 + 1, week);
    NumeralParses(s, p2 + 1, day);
  }

  lemma RuleParses(s: string, pos: nat, r: RuleText)
    requires GoodRule(r) && Matches(s, pos, RenderRule(r)) && EndsRule(s, pos + |RenderRule(r)|, r)
    ensures ParseRule(s, pos) == At(RuleMeaning(r), pos + |RenderRule(r)|)
  {
    hide Matches, ParseRuleBody, BodyMeaning, GoodBody, RenderBody, ParseOffset, OffsetSeconds, RenderOffset,
         GoodOffset;
    MatchesBoth(s, pos, RenderBody(r.body), RenderTime(r.time));
    var p := pos + |RenderBody(r.body)|;
    if r.time.Some? {
      MatchesBoth(s, p, "/", RenderOffset(r.time.value));
      MatchesChar(s, p, '/');
      OffsetParses(s, p + 1, r.time.value);
    }
    BodyParses(s, pos, r.body);
  }

  lemma DstOffsetParses(s: string, pos: nat, name: string, o: Option<OffsetText>, std: int)
    requires (o.Some? ==> GoodOffset(o.value)) && pos <= |s| && Matches(s, pos, RenderOptional(o))
    requires EndsDstOffset(s, pos + |RenderOptional(o)|, name, o)
    ensures ParseDstOffset(s, pos, std) == At(DstSeconds(o, std), pos + |RenderOptional(o)|)
    ensures EndsName(s, pos, name)
  {
    if o.Some? {
      OffsetParses(s, pos, o.value);
    }
  }

  lemma DstParses(s: string, pos: nat, t: TzText, std: int)
    requires GoodDst(t.dst) && !t.dst.NoDst? && pos < |s|
    requires Matches(s, pos, RenderDst(t.dst)) && Ends(s, pos + |RenderDst(t.dst)|, t)
    ensures ParseDst(s, pos, std) == At(DstMeaning(t.dst, std), pos + |RenderDst(t.dst)|)
  {
    hide Matches, SkipTzName, ParseDstOffset, ParseRules, RuleMeaning, DstSeconds, RenderRule, RenderOptional, Name;
    match t.dst
    case DstName(name, offset) => DstNameParses(s, pos, name, offset, std);
    case DstRules(name, offset, start, end) => DstRulesParse(s, pos, name, offset, start, end, std);
  }

  lemma DstNameParses(s: string, pos: nat, name: string, offset: Option<OffsetText>, std: int)
    requires Name(name) && (offset.Some? ==> GoodOffset(offset.value)) && pos < |s|
    requires Matches(s, pos, name + RenderOptional(offset))
    requires EndsDstOffset(s, pos + |name| + |RenderOptional(offset)|, name, offset)
    ensures SkipTzName(s, pos) == At((), pos + |name|)
    ensures ParseDstOffset(s, pos + |name|, std) ==
            At(DstSeconds(offset, std), pos + |name| + |RenderOptional(offset)|)
  {
    hide Matches, Name, GoodOffset, RenderOptional, ParseDstOffset, SkipTzName, DstSeconds;
    MatchesBoth(s, pos, name, RenderOptional(offset));
    MatchesFits(s, pos, name);
    DstOffsetParses(s, pos + |name|, name, offset, std);
    NameParses(s, pos, name);
  }

  lemma DstRulesParse(s: string, pos: nat, name: string, offset: Option<OffsetText>, start: RuleText,
                      end: RuleText, std: int)
    requires Name(name) && (offset.Some? ==> GoodOffset(offset.value)) && pos < |s|
    requires GoodRule(start) && GoodRule(end)
    requires var d := DstRules(name, offset, start, end);
             Matches(s, pos, RenderDst(d)) && EndsRule(s, pos + |RenderDst(d)|, end)
    ensures var d := DstRules(name, offset, start, end);
            ParseDst(s, pos, std) == At(DstMeaning(d, std), pos + |RenderDst(d)|)
  {
    hide Matches, SkipTzName, ParseDstOffset, ParseRules, RuleMeaning, DstSeconds, RenderRule, RenderOptional, Name;
    var rules := "," + (RenderRule(start) + ("," + RenderRule(end)));
    var p := pos + |name| + |RenderOptional(offset)|;
    MatchesBoth(s, pos, name, RenderOptional(offset) + rules);
    MatchesBoth(s, pos + |name|, RenderOptional(offset), rules);
    MatchesBoth(s, pos, name, RenderOptional(offset));
    RulesParse(s, p, start, end, std, DstSeconds(offset, std));
    assert EndsDstOffset(s, p, name, offset);
    DstNameParses(s, pos, name, offset, std);
  }

  lemma RulesParse(s: string, pos: nat, start: RuleText, end: RuleText, std: int, dst: int)
    requires GoodRule(start) && GoodRule(end)
    requires Matches(s, pos, "," + (RenderRule(start) + ("," + RenderRule(end))))
    requires EndsRule(s, pos + 2 + |RenderRule(start)| + |RenderRule(end)|, end)
    ensures CharAt(s, pos, ',')
    ensures ParseRules(s, pos + 1, std, dst) ==
            At(ParsedTimezone(std, dst, RuleMeaning(start), RuleMeaning(end)),
               pos + 2 + |RenderRule(start)| + |RenderRule(end)|)
  {
    hide Matches, ParseRule, RuleMeaning, RenderRule, GoodRule;
    MatchesBoth(s, pos, ",", RenderRule(start) + ("," + RenderRule(end)));
    MatchesBoth(s, pos + 1, RenderRule(start), "," + RenderRule(end));
    var p := pos + 1 + |RenderRule(start)|;
    MatchesBoth(s, p, ",", RenderRule(end));
    MatchesChar(s, pos, ',');
    MatchesChar(s, p, ',');
    RuleParses(s, pos + 1, start);
    RuleParses(s, p + 1, end);
  }

  /** What begins a DST name ends the offset before it. */
  lemma DstStarts(s: string, pos: nat, d: DstText, o: OffsetText)
    requires GoodDst(d) && !d.NoDst? && Matches(s, pos, RenderDst(d))
    ensures pos < |s| && EndsOffset(s, pos, o) && !CharAt(s, pos, ',')
    ensures AlphaAt(s, pos) || CharAt(s, pos, '<')
  {
    assert s[pos + 0] == RenderDst(d)[0] == d.name[0];
  }

  lemma TextParses(s: string, t: TzText)
    requires Good(t) && Matches(s, 0, Render(t)) && Ends(s, |Render(t)|, t)
    ensures ParsePosixTz(s) == At(Meaning(t), |Render(t)|)
  {
    hide Matches, RenderDst, RenderOffset, DstMeaning, OffsetSeconds, GoodOffset, ParseOffset, SkipTzName, ParseDst;
    var p1 := |t.name|;
    var p2 := p1 + |RenderOffset(t.offset)|;
    MatchesBoth(s, 0, t.name, RenderOffset(t.offset) + RenderDst(t.dst));
    MatchesBoth(s, p1, RenderOffset(t.offset), RenderDst(t.dst));
    if t.dst.NoDst? {
      NoDstParses(s, p2, t);
    } else {
      DstStarts(s, p2, t.dst, t.offset);
      DstParses(s, p2, t, OffsetSeconds(t.offset));
    }
    OffsetParses(s, p1, t.offset);
    OffsetEndsName(s, p1, t.name);
    NameParses(s, 0, t.name);
  }

  lemma NoDstParses(s: string, pos: nat, t: TzText)
    requires t.dst.NoDst? && Ends(s, pos + |RenderDst(t.dst)|, t)
    ensures RenderDst(t.dst) == "" && EndsOffset(s, pos, t.offset) && !AlphaAt(s, pos)
    ensures !CharAt(s, pos, ',') && !CharAt(s, pos, '<')
    ensures forall std :: DstMeaning(t.dst, std) == ParsedTimezone(std, 0, NO_RULE, NO_RULE)
  {
  }

  lemma OffsetEndsName(s: string, pos: nat, name: string)
    requires DigitAt(s, pos) || SignAt(s, pos)
    ensures EndsName(s, pos, name)
  {
  }

  /** Completeness: every well-formed text is parsed to what it means, whatever is ignored after it. */
  lemma RenderedIsParsed(t: TzText, rest: string)
    requires Good(t) && Ends(Render(t) + rest, |Render(t)|, t)
    ensures ParsePosixTz(Render(t) + rest) == At(Meaning(t), |Render(t)|)
  {
    TextParses(Render(t) + rest, t);
  }
}
