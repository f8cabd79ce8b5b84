/**
 The parser for POSIX TZ strings (section 8.3 of POSIX.1-2017 Base Definitions), on ASCII text.
 The functions specify the parser; the methods are its loops, in the form of the source.
 A ValueError is a `Fail`.
 */
module PosixTz {
  datatype Parsed<+T> = Fail | At(value: T, pos: nat)

  datatype RuleType = NoRule | MonthWeekDay | JulianNoLeap | DayOfYear

  datatype DstRule = DstRule(timeSeconds: int, day: nat, kind: RuleType, month: nat, week: nat, dayOfWeek: nat)

  datatype ParsedTimezone = ParsedTimezone(stdOffset: int, dstOffset: int, dstStart: DstRule, dstEnd: DstRule)

  const NO_RULE := DstRule(0, 0, NoRule, 0, 0, 0)

  predicate IsDigit(c: char) {
    '0' <= c <= '9'
  }

  predicate IsAlpha(c: char) {
    'a' <= c <= 'z' || 'A' <= c <= 'Z'
  }

  predicate DigitAt(s: string, pos: nat) {
    pos < |s| && IsDigit(s[pos])
  }

  predicate AlphaAt(s: string, pos: nat) {
    pos < |s| && IsAlpha(s[pos])
  }

  predicate CharAt(s: string, pos: nat, c: char) {
    pos < |s| && s[pos] == c
  }

  predicate SignAt(s: string, pos: nat) {
    CharAt(s, pos, '+') || CharAt(s, pos, '-')
  }

  /** The end of the run of digits at `pos`. */
  function DigitsEnd(s: string, pos: nat): (end: nat)
    requires pos <= |s|
    ensures pos <= end <= |s| && !DigitAt(s, end)
    ensures forall i | pos <= i < end :: IsDigit(s[i])
    decreases |s| - pos
  {
    if DigitAt(s, pos) then DigitsEnd(s, pos + 1) else pos
  }

  function LettersEnd(s: string, pos: nat): (end: nat)
    requires pos <= |s|
    ensures pos <= end <= |s| && !AlphaAt(s, end)
    ensures forall i | pos <= i < end :: IsAlpha(s[i])
    decreases |s| - pos
  {
    if AlphaAt(s, pos) then LettersEnd(s, pos + 1) else pos
  }

  /** The next '>' at or after `pos`, or the end of the string. */
  function BracketEnd(s: string, pos: nat): (end: nat)
    requires pos <= |s|
    ensures pos <= end <= |s| && (end < |s| ==> s[end] == '>')
    ensures forall i | pos <= i < end :: s[i] != '>'
    decreases |s| - pos
  {
    if pos < |s| && s[pos] != '>' then BracketEnd(s, pos + 1) else pos
  }

  predicate AllDigits(digits: string) {
    forall i | 0 <= i < |digits| :: IsDigit(digits[i])
  }

  function DigitValue(c: char): nat
    requires IsDigit(c)
  {
    (c as int) - ('0' as int)
  }

  /** The decimal value, one digit after the other. */
  function Value(digits: string): nat
    requires AllDigits(digits)
  {
    if digits == [] then 0 else Value(digits[..|digits| - 1]) * 10 + DigitValue(digits[|digits| - 1])
  }

  function ParseUint(s: string, pos: nat): (r: Parsed<nat>)
    requires pos <= |s|
    ensures r.At? ==> pos < r.pos <= |s|
  {
    var end := DigitsEnd(s, pos);
    if end == pos then Fail else At(Value(s[pos..end]), end)
  }

  function SkipTzName(s: string, pos: nat): (r: Parsed<()>)
    requires pos < |s|
    ensures r.At? ==> pos < r.pos <= |s|
  {
    if s[pos] == '<' then
      var end := BracketEnd(s, pos + 1);
      if end == |s| then Fail else At((), end + 1)
    else
      var end := LettersEnd(s, pos);
      if end - pos < 3 then Fail else At((), end)
  }

  /** hh[:mm[:ss]] */
  function ParseMagnitude(s: string, pos: nat): (r: Parsed<nat>)
    requires pos <= |s|
    ensures r.At? ==> pos < r.pos <= |s|
  {
    match ParseUint(s, pos)
    case Fail => Fail
    case At(hours, p1) =>
      if !CharAt(s, p1, ':') then At(hours * 3600, p1)
      else
        match ParseUint(s, p1 + 1)
        case Fail => Fail
        case At(minutes, p2) =>
          if !CharAt(s, p2, ':') then At(hours * 3600 + minutes * 60, p2)
          else
            match ParseUint(s, p2 + 1)
            case Fail => Fail
            case At(seconds, p3) => At(hours * 3600 + minutes * 60 + seconds, p3)
  }

  function ParseOffset(s: string, pos: nat): (r: Parsed<int>)
    requires pos <= |s|
    ensures r.At? ==> pos < r.pos <= |s|
  {
    match ParseMagnitude(s, if SignAt(s, pos) then pos + 1 else pos)
    case Fail => Fail
    case At(value, p) => At(if CharAt(s, pos, '-') then 0 - value else value, p)
  }

  function ParseRuleM(s: string, pos: nat): (r: Parsed<DstRule>)
    requires pos < |s|
    ensures r.At? ==> pos < r.pos <= |s|
  {
    match ParseUint(s, pos + 1)
    case Fail => Fail
    case At(month, p1) =>
      if month < 1 || month > 12 || !CharAt(s, p1, '.') then Fail
      else
        match ParseUint(s, p1 + 1)
        case Fail => Fail
        case At(week, p2) =>
          if week < 1 || week > 5 || !CharAt(s, p2, '.') then Fail
          else
            match ParseUint(s, p2 + 1)
            case Fail => Fail
            case At(day, p3) =>
              if day > 6 then Fail else At(DstRule(0, 0, MonthWeekDay, month, week, day), p3)
  }

  function ParseRuleJ(s: string, pos: nat): (r: Parsed<DstRule>)
    requires pos < |s|
    ensures r.At? ==> pos < r.pos <= |s|
  {
    match ParseUint(s, pos + 1)
    case Fail => Fail
    case At(day, p) => if day < 1 || day > 365 then Fail else At(DstRule(0, day, JulianNoLeap, 0, 0, 0), p)
  }

  function ParseRuleN(s: string, pos: nat): (r: Parsed<DstRule>)
    requires pos <= |s|
    ensures r.At? ==> pos < r.pos <= |s|
  {
    match ParseUint(s, pos)
    case Fail => Fail
    case At(day, p) => if day > 365 then Fail else At(DstRule(0, day, DayOfYear, 0, 0, 0), p)
  }

  function ParseRuleBody(s: string, pos: nat): (r: Parsed<DstRule>)
    requires pos <= |s|
    ensures r.At? ==> pos < r.pos <= |s|
  {
    if pos >= |s| then Fail
    else if s[pos] == 'M' || s[pos] == 'm' then ParseRuleM(s, pos)
    else if s[pos] == 'J' || s[pos] == 'j' then ParseRuleJ(s, pos)
    else if IsDigit(s[pos]) then ParseRuleN(s, pos)
    else Fail
  }

  const DEFAULT_RULE_TIME := 7200

  function ParseRule(s: string, pos: nat): (r: Parsed<DstRule>)
    requires pos <= |s|
    ensures r.At? ==> pos < r.pos <= |s|
  {
    match ParseRuleBody(s, pos)
    case Fail => Fail
    case At(rule, p) =>
      if !CharAt(s, p, '/') then At(rule.(timeSeconds := DEFAULT_RULE_TIME), p)
      else
        match ParseOffset(s, p + 1)
        case Fail => Fail
        case At(time, q) => At(rule.(timeSeconds := time), q)
  }

  /** The DST offset, by default an hour less than the standard offset. */
  function ParseDstOffset(s: string, pos: nat, std: int): (r: Parsed<int>)
    requires pos <= |s|
    ensures r.At? ==> pos <= r.pos <= |s|
  {
    if DigitAt(s, pos) || SignAt(s, pos) then ParseOffset(s, pos) else At(std - 3600, pos)
  }

  /** The DST part: everything after the standard offset once a DST name begins at `pos`. */
  function ParseDst(s: string, pos: nat, std: int): Parsed<ParsedTimezone>
    requires pos < |s|
  {
    match SkipTzName(s, pos)
    case Fail => Fail
    case At(_, p1) =>
      match ParseDstOffset(s, p1, std)
      case Fail => Fail
      case At(dst, p2) =>
        if !CharAt(s, p2, ',') then At(ParsedTimezone(std, dst, NO_RULE, NO_RULE), p2)
        else ParseRules(s, p2 + 1, std, dst)
  }

  function ParseRules(s: string, pos: nat, std: int, dst: int): Parsed<ParsedTimezone>
    requires pos <= |s|
  {
    match ParseRule(s, pos)
    case Fail => Fail
    case At(start, p1) =>
      if !CharAt(s, p1, ',') then Fail
      else
        match ParseRule(s, p1 + 1)
        case Fail => Fail
        case At(end, p2) => At(ParsedTimezone(std, dst, start, end), p2)
  }

  /** `parse_posix_tz`; the position is where parsing stopped, what follows is ignored. */
  function ParsePosixTz(s: string): Parsed<ParsedTimezone> {
    if s == "" then Fail
    else
      match SkipTzName(s, 0)
      case Fail => Fail
      case At(_, p1) =>
        if !DigitAt(s, p1) && !SignAt(s, p1) then Fail
        else
          match ParseOffset(s, p1)
          case Fail => Fail
          case At(std, p2) =>
            if CharAt(s, p2, ',') then Fail
            else if !AlphaAt(s, p2) && !CharAt(s, p2, '<') then At(ParsedTimezone(std, 0, NO_RULE, NO_RULE), p2)
            else ParseDst(s, p2, std)
  }

  // Soundness

  predicate RuleInRange(r: DstRule) {
    match r.kind
    case NoRule => false
    case MonthWeekDay => 1 <= r.month <= 12 && 1 <= r.week <= 5 && r.dayOfWeek <= 6 && r.day == 0
    case JulianNoLeap => 1 <= r.day <= 365 && r.month == r.week == r.dayOfWeek == 0
    case DayOfYear => r.day <= 365 && r.month == r.week == r.dayOfWeek == 0
  }

  lemma RuleIsInRange(s: string, pos: nat)
    requires pos <= |s| && ParseRule(s, pos).At?
    ensures RuleInRange(ParseRule(s, pos).value)
  {
    assert RuleInRange(ParseRuleBody(s, pos).value);
  }

  predicate SaneTimezone(tz: ParsedTimezone) {
    || (tz.dstStart == NO_RULE && tz.dstEnd == NO_RULE)
    || (RuleInRange(tz.dstStart) && RuleInRange(tz.dstEnd))
  }

  lemma RulesAreSane(s: string, pos: nat, std: int, dst: int)
    requires pos <= |s| && ParseRules(s, pos, std, dst).At?
    ensures SaneTimezone(ParseRules(s, pos, std, dst).value)
    ensures pos < ParseRules(s, pos, std, dst).pos <= |s|
  {
    RuleIsInRange(s, pos);
    RuleIsInRange(s, ParseRule(s, pos).pos + 1);
  }

  lemma DstIsSane(s: string, pos: nat, std: int)
    requires pos < |s| && ParseDst(s, pos, std).At?
    ensures SaneTimezone(ParseDst(s, pos, std).value)
    ensures pos < ParseDst(s, pos, std).pos <= |s|
  {
    hide ParseRules, ParseDstOffset, SkipTzName, RuleInRange;
    var p1 := SkipTzName(s, pos).pos;
    var offset := ParseDstOffset(s, p1, std);
    if CharAt(s, offset.pos, ',') {
      RulesAreSane(s, offset.pos + 1, std, offset.value);
    }
  }

  /** Success means no rules at all, or two rules with every field in range and the others zero. */
  lemma ParsedIsSane(s: string)
    requires ParsePosixTz(s).At?
    ensures SaneTimezone(ParsePosixTz(s).value)
    ensures 0 < ParsePosixTz(s).pos <= |s|
  {
    hide ParseDst, ParseOffset, SkipTzName, RuleInRange;
    var p1 := SkipTzName(s, 0).pos;
    var p2 := ParseOffset(s, p1).pos;
    if AlphaAt(s, p2) || CharAt(s, p2, '<') {
      DstIsSane(s, p2, ParseOffset(s, p1).value);
    }
  }
}
