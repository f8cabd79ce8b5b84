/**
 The parser in the form of its source: loops that advance a position, and a rule object that the
 rule parsers fill in field by field.  Every method is proved against its function in `PosixTz`.
 */
module PosixTzParser {
  import opened PosixTz

  class DSTRule {
    var timeSeconds: int
    var day: nat
    var kind: RuleType
    var month: nat
    var week: nat
    var dayOfWeek: nat

    function View(): DstRule
      reads this
    {
      DstRule(timeSeconds, day, kind, month, week, dayOfWeek)
    }

    constructor ()
      ensures View() == NO_RULE
    {
      timeSeconds, day, kind, month, week, dayOfWeek := 0, 0, NoRule, 0, 0, 0;
    }
  }

  lemma {:induction false} DigitsEndFrom(s: string, start: nat, pos: nat)
    requires start <= pos <= |s| && forall i | start <= i < pos :: IsDigit(s[i])
    ensures DigitsEnd(s, start) == DigitsEnd(s, pos)
    decreases pos - start
  {
    if start < pos {
      DigitsEndFrom(s, start + 1, pos);
    }
  }

  lemma {:induction false} LettersEndFrom(s: string, start: nat, pos: nat)
    requires start <= pos <= |s| && forall i | start <= i < pos :: IsAlpha(s[i])
    ensures LettersEnd(s, start) == LettersEnd(s, pos)
    decreases pos - start
  {
    if start < pos {
      LettersEndFrom(s, start + 1, pos);
    }
  }

  lemma {:induction false} BracketEndFrom(s: string, start: nat, pos: nat)
    requires start <= pos <= |s| && forall i | start <= i < pos :: s[i] != '>'
    ensures BracketEnd(s, start) == BracketEnd(s, pos)
    decreases pos - start
  {
    if start < pos {
      BracketEndFrom(s, start + 1, pos);
    }
  }

  lemma NoDigits(s: string, start: nat)
    requires start <= |s|
    ensures AllDigits(s[start..start]) && Value(s[start..start]) == 0
  {
  }

  lemma OneMoreDigit(s: string, start: nat, pos: nat)
    requires start <= pos < |s| && AllDigits(s[start..pos]) && IsDigit(s[pos])
    ensures AllDigits(s[start..pos + 1])
    ensures Value(s[start..pos + 1]) == Value(s[start..pos]) * 10 + DigitValue(s[pos])
  {
    var longer := s[start..pos + 1];
    assert longer == s[start..pos] + [s[pos]];
    assert longer[..|longer| - 1] == s[start..pos];
  }

  method ParseUintLoop(s: string, start: nat) returns (r: Parsed<nat>)
    requires start <= |s|
    ensures r == ParseUint(s, start)
  {
    hide Value;
    var pos := start;
    var value := 0;
    NoDigits(s, start);
    while pos < |s| && IsDigit(s[pos])
      invariant start <= pos <= |s|
      invariant AllDigits(s[start..pos]) && value == Value(s[start..pos])
    {
      OneMoreDigit(s, start, pos);
      value := value * 10 + DigitValue(s[pos]);
      pos := pos + 1;
    }
    assert forall i | start <= i < pos :: s[i] == s[start..pos][i - start];
    DigitsEndFrom(s, start, pos);
    return if pos == start then Fail else At(value, pos);
  }

  method SkipTzNameLoop(s: string, start: nat) returns (r: Parsed<()>)
    requires start < |s|
    ensures r == SkipTzName(s, start)
  {
    var pos := start;
    if s[pos] == '<' {
      pos := pos + 1;
      while pos < |s| && s[pos] != '>'
        invariant start < pos <= |s| && forall i | start < i < pos :: s[i] != '>'
      {
        pos := pos + 1;
      }
      BracketEndFrom(s, start + 1, pos);
      return if pos >= |s| then Fail else At((), pos + 1);
    }
    while pos < |s| && IsAlpha(s[pos])
      invariant start <= pos <= |s| && forall i | start <= i < pos :: IsAlpha(s[i])
    {
      pos := pos + 1;
    }
    LettersEndFrom(s, start, pos);
    return if pos - start < 3 then Fail else At((), pos);
  }

  method ParseOffsetText(s: string, start: nat) returns (r: Parsed<int>)
    requires start <= |s|
    ensures r == ParseOffset(s, start)
  {
    hide ParseUint;
    var pos := start;
    var sign: int := 1;
    if pos < |s| && s[pos] == '-' {
      sign := -1;
      pos := pos + 1;
    } else if pos < |s| && s[pos] == '+' {
      pos := pos + 1;
    }
    var n := ParseUintLoop(s, pos);
    if n.Fail? {
      return Fail;
    }
    var hours, minutes, seconds := n.value, 0, 0;
    pos := n.pos;
    if pos < |s| && s[pos] == ':' {
      n := ParseUintLoop(s, pos + 1);
      if n.Fail? {
        return Fail;
      }
      minutes, pos := n.value, n.pos;
      if pos < |s| && s[pos] == ':' {
        n := ParseUintLoop(s, pos + 1);
        if n.Fail? {
          return Fail;
        }
        seconds, pos := n.value, n.pos;
      }
    }
    return At(sign * (hours * 3600 + minutes * 60 + seconds), pos);
  }

  /** What a rule parser promises: the position, and on success the filled rule. */
  ghost predicate Filled(r: Parsed<()>, rule: DstRule, spec: Parsed<DstRule>) {
    match spec
    case Fail => r == Fail
    case At(value, pos) => r == At((), pos) && rule == value
  }

  method ParseDstRuleM(s: string, start: nat, rule: DSTRule) returns (r: Parsed<()>)
    requires start < |s| && rule.View() == NO_RULE
    modifies rule
    ensures Filled(r, rule.View(), ParseRuleM(s, start))
  {
    hide ParseUint;
    rule.kind := MonthWeekDay;
    var n := ParseUintLoop(s, start + 1);
    if n.Fail? {
      return Fail;
    }
    rule.month := n.value;
    if rule.month < 1 || rule.month > 12 {
      return Fail;
    }
    var pos := n.pos;
    if pos >= |s| || s[pos] != '.' {
      return Fail;
    }
    n := ParseUintLoop(s, pos + 1);
    if n.Fail? {
      return Fail;
    }
    rule.week := n.value;
    if rule.week < 1 || rule.week > 5 {
      return Fail;
    }
    pos := n.pos;
    if pos >= |s| || s[pos] != '.' {
      return Fail;
    }
    n := ParseUintLoop(s, pos + 1);
    if n.Fail? {
      return Fail;
    }
    rule.dayOfWeek := n.value;
    return if rule.dayOfWeek > 6 then Fail else At((), n.pos);
  }

  method ParseDstRuleJ(s: string, start: nat, rule: DSTRule) returns (r: Parsed<()>)
    requires start < |s| && rule.View() == NO_RULE
    modifies rule
    ensures Filled(r, rule.View(), ParseRuleJ(s, start))
  {
    hide ParseUint;
    rule.kind := JulianNoLeap;
    var n := ParseUintLoop(s, start + 1);
    if n.Fail? {
      return Fail;
    }
    rule.day := n.value;
    return if rule.day < 1 || rule.day > 365 then Fail else At((), n.pos);
  }

  method ParseDstRuleN(s: string, start: nat, rule: DSTRule) returns (r: Parsed<()>)
    requires start <= |s| && rule.View() == NO_RULE
    modifies rule
    ensures Filled(r, rule.View(), ParseRuleN(s, start))
  {
    hide ParseUint;
    rule.kind := DayOfYear;
    var n := ParseUintLoop(s, start);
    if n.Fail? {
      return Fail;
    }
    rule.day := n.value;
    return if rule.day > 365 then Fail else At((), n.pos);
  }

  method ParseDstRuleBody(s: string, start: nat, rule: DSTRule) returns (r: Parsed<()>)
    requires start <= |s| && rule.View() == NO_RULE
    modifies rule
    ensures Filled(r, rule.View(), ParseRuleBody(s, start))
  {
    hide ParseRuleM, ParseRuleJ, ParseRuleN;
    if start >= |s| {
      return Fail;
    }
    if s[start] == 'M' || s[start] == 'm' {
      r := ParseDstRuleM(s, start, rule);
    } else if s[start] == 'J' || s[start] == 'j' {
      r := ParseDstRuleJ(s, start, rule);
    } else if IsDigit(s[start]) {
      r := ParseDstRuleN(s, start, rule);
    } else {
      return Fail;
    }
  }

  method ParseDstRule(s: string, start: nat) returns (r: Parsed<DstRule>)
    requires start <= |s|
    ensures r == ParseRule(s, start)
  {
    hide ParseRuleBody, ParseOffset;
    var rule := new DSTRule();
    var body := ParseDstRuleBody(s, start, rule);
    if body.Fail? {
      return Fail;
    }
    var pos := body.pos;
    rule.timeSeconds := 2 * 3600;
    if pos < |s| && s[pos] == '/' {
      var time := ParseOffsetText(s, pos + 1);
      if time.Fail? {
        return Fail;
      }
      rule.timeSeconds, pos := time.value, time.pos;
    }
    return At(rule.View(), pos);
  }

  /** The second half of `parse_posix_tz`, from the DST name on; `result` is filled in further. */
  method ParseDstPart(s: string, start: nat, tz: ParsedTimezone) returns (r: Parsed<ParsedTimezone>)
    requires start < |s| && tz == ParsedTimezone(tz.stdOffset, 0, NO_RULE, NO_RULE)
    ensures r == ParseDst(s, start, tz.stdOffset)
  {
    hide SkipTzName, ParseOffset, ParseRule;
    var result := tz;
    var name := SkipTzNameLoop(s, start);
    if name.Fail? {
      return Fail;
    }
    var pos := name.pos;
    if pos < |s| && s[pos] != ',' && (IsDigit(s[pos]) || s[pos] == '+' || s[pos] == '-') {
      var offset := ParseOffsetText(s, pos);
      if offset.Fail? {
        return Fail;
      }
      result, pos := result.(dstOffset := offset.value), offset.pos;
    } else {
      result := result.(dstOffset := result.stdOffset - 3600);
    }
    if pos >= |s| || s[pos] != ',' {
      return At(result, pos);
    }
    r := ParseBothRules(s, pos + 1, result);
  }

  method ParseBothRules(s: string, start: nat, tz: ParsedTimezone) returns (r: Parsed<ParsedTimezone>)
    requires start <= |s|
    ensures r == ParseRules(s, start, tz.stdOffset, tz.dstOffset)
  {
    hide ParseRule;
    var result := tz;
    var rule := ParseDstRule(s, start);
    if rule.Fail? {
      return Fail;
    }
    result := result.(dstStart := rule.value);
    var pos := rule.pos;
    if pos >= |s| || s[pos] != ',' {
      return Fail;
    }
    rule := ParseDstRule(s, pos + 1);
    if rule.Fail? {
      return Fail;
    }
    return At(result.(dstEnd := rule.value), rule.pos);
  }

  method ParseTimezone(s: string) returns (r: Parsed<ParsedTimezone>)
    ensures r == ParsePosixTz(s)
  {
    hide SkipTzName, ParseOffset, ParseDst;
    if s == "" {
      return Fail;
    }
    var name := SkipTzNameLoop(s, 0);
    if name.Fail? {
      return Fail;
    }
    var pos := name.pos;
    if pos >= |s| || (!IsDigit(s[pos]) && s[pos] != '+' && s[pos] != '-') {
      return Fail;
    }
    var offset := ParseOffsetText(s, pos);
    if offset.Fail? {
      return Fail;
    }
    var result := ParsedTimezone(offset.value, 0, NO_RULE, NO_RULE);
    pos := offset.pos;
    if pos >= |s| {
      return At(result, pos);
    }
    if s[pos] == ',' {
      return Fail;
    }
    if !IsAlpha(s[pos]) && s[pos] != '<' {
      return At(result, pos);
    }
    r := ParseDstPart(s, pos, result);
  }
}
