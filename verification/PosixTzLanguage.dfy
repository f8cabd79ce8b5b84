/** The converse of completeness: whatever the parser accepts is the rendering of a well-formed text. */
module PosixTzLanguage {
  import opened Wrappers
  import opened PosixTz
  import opened PosixTzGrammar

  lemma SliceMatches(s: string, pos: nat, end: nat)
    requires pos <= end <= |s|
    ensures Matches(s, pos, s[pos..end])
  {
    MatchesSlice(s, pos, s[pos..end]);
  }

  lemma NumeralBehind(s: string, pos: nat) returns (t: string)
    requires pos <= |s| && ParseUint(s, pos).At?
    ensures Numeral(t) && Matches(s, pos, t) && !DigitAt(s, pos + |t|)
    ensures ParseUint(s, pos) == At(Number(t), pos + |t|)
  {
    t := s[pos..DigitsEnd(s, pos)];
    SliceMatches(s, pos, DigitsEnd(s, pos));
    NumberIsValue(t);
  }

  lemma NameBehind(s: string, pos: nat) returns (t: string)
    requires pos < |s| && SkipTzName(s, pos).At?
    ensures Name(t) && Matches(s, pos, t) && EndsName(s, pos + |t|, t)
    ensures SkipTzName(s, pos) == At((), pos + |t|)
  {
    var end := SkipTzName(s, pos).pos;
    t := s[pos..end];
    SliceMatches(s, pos, end);
  }

  /** ":" and a numeral, or nothing when no ':' is there. */
  lemma PartBehind(s: string, pos: nat) returns (t: string)
    requires pos <= |s| && !DigitAt(s, pos) && (CharAt(s, pos, ':') ==> ParseUint(s, pos + 1).At?)
    ensures (t != "" ==> Numeral(t)) && Matches(s, pos, RenderPart(t)) && (CharAt(s, pos, ':') <==> t != "")
    ensures !DigitAt(s, pos + |RenderPart(t)|)
    ensures t != "" ==> ParseUint(s, pos + 1) == At(Number(t), pos + |RenderPart(t)|)
  {
    hide Matches, AllDigits, Number, ParseUint, DigitAt;
    t := "";
    EmptyMatches(s, pos);
    if CharAt(s, pos, ':') {
      t := NumeralBehind(s, pos + 1);
      MatchesChar(s, pos, ':');
      MatchesBoth(s, pos, ":", t);
    }
  }

  lemma SignBehind(s: string, pos: nat) returns (sign: Sign)
    requires pos <= |s|
    ensures Matches(s, pos, RenderSign(sign)) && (sign == NoSign <==> !SignAt(s, pos))
    ensures |RenderSign(sign)| == if sign == NoSign then 0 else 1
  {
    MatchesChar(s, pos, '-');
    MatchesChar(s, pos, '+');
    sign := if CharAt(s, pos, '-') then Minus else if CharAt(s, pos, '+') then Plus else NoSign;
  }

  lemma OffsetAssembles(s: string, pos: nat, o: OffsetText)
    requires var p0 := pos + |RenderSign(o.sign)|;
             var p1 := p0 + |o.hours|;
             && Matches(s, pos, RenderSign(o.sign)) && Matches(s, p0, o.hours)
             && Matches(s, p1, RenderPart(o.minutes))
             && Matches(s, p1 + |RenderPart(o.minutes)|, RenderPart(o.seconds))
    ensures Matches(s, pos, RenderOffset(o))
  {
    hide Matches;
    var parts := RenderPart(o.minutes) + RenderPart(o.seconds);
    var p0 := pos + |RenderSign(o.sign)|;
    MatchesBoth(s, p0 + |o.hours|, RenderPart(o.minutes), RenderPart(o.seconds));
    MatchesBoth(s, p0, o.hours, parts);
    MatchesBoth(s, pos, RenderSign(o.sign), o.hours + parts);
  }

  lemma NumbersBehind(s: string, pos: nat)
    requires pos <= |s| && ParseOffset(s, pos).At?
    ensures var hours := ParseUint(s, if SignAt(s, pos) then pos + 1 else pos);
            && hours.At?
            && (CharAt(s, hours.pos, ':') ==>
                  var minutes := ParseUint(s, hours.pos + 1);
                  minutes.At? && (CharAt(s, minutes.pos, ':') ==> ParseUint(s, minutes.pos + 1).At?))
  {
    hide ParseUint, AllDigits;
  }

  lemma OffsetBehind(s: string, pos: nat) returns (o: OffsetText)
    requires pos <= |s| && ParseOffset(s, pos).At?
    ensures GoodOffset(o) && Matches(s, pos, RenderOffset(o)) && EndsOffset(s, pos + |RenderOffset(o)|, o)
    ensures ParseOffset(s, pos) == At(OffsetSeconds(o), pos + |RenderOffset(o)|)
  {
    hide Matches, AllDigits, Number, ParseUint, DigitAt, ParseOffset, OffsetSeconds, CharAt, SignAt;
    NumbersBehind(s, pos);
    var sign := SignBehind(s, pos);
    var hours := NumeralBehind(s, pos + |RenderSign(sign)|);
    var p1 := pos + |RenderSign(sign)| + |hours|;
    var minutes := PartBehind(s, p1);
    var p2 := p1 + |RenderPart(minutes)|;
    var seconds := "";
    if minutes != "" {
      seconds := PartBehind(s, p2);
    }
    o := OffsetText(sign, hours, minutes, seconds);
    EmptyMatches(s, p2);
    OffsetAssembles(s, pos, o);
    assert EndsOffset(s, pos + |RenderOffset(o)|, o);
    OffsetParses(s, pos, o);
  }

  lemma EmptyMatches(s: string, pos: nat)
    ensures pos <= |s| ==> Matches(s, pos, "")
  {
  }

  lemma TimeBehind(s: string, pos: nat) returns (time: Option<OffsetText>)
    requires pos <= |s| && !DigitAt(s, pos) && (CharAt(s, pos, '/') ==> ParseOffset(s, pos + 1).At?)
    ensures (time.Some? ==> GoodOffset(time.value)) && Matches(s, pos, RenderTime(time))
    ensures match time
            case None => !DigitAt(s, pos + |RenderTime(time)|) && !CharAt(s, pos + |RenderTime(time)|, '/')
            case Some(o) => EndsOffset(s, pos + |RenderTime(time)|, o)
  {
    hide Matches, ParseOffset, GoodOffset, EndsOffset, RenderOffset, DigitAt;
    time := None;
    EmptyMatches(s, pos);
    if CharAt(s, pos, '/') {
      var o := OffsetBehind(s, pos + 1);
      time := Some(o);
      MatchesChar(s, pos, '/');
      MatchesBoth(s, pos, "/", RenderOffset(o));
    }
  }

  /** A number between `low` and `high` from `pos` to `end`. */
  predicate NumberAt(s: string, pos: nat, low: nat, high: nat, end: nat) {
    pos <= |s| && match ParseUint(s, pos)
                  case Fail => false
                  case At(value, p) => p == end && low <= value <= high
  }

  lemma NumbersOfM(s: string, pos: nat) returns (p1: nat, p2: nat)
    requires pos < |s| && ParseRuleM(s, pos).At?
    ensures NumberAt(s, pos + 1, 1, 12, p1) && CharAt(s, p1, '.') && NumberAt(s, p1 + 1, 1, 5, p2)
    ensures CharAt(s, p2, '.') && NumberAt(s, p2 + 1, 0, 6, ParseRuleM(s, pos).pos)
  {
    hide ParseUint;
    p1 := ParseUint(s, pos + 1).pos;
    p2 := ParseUint(s, p1 + 1).pos;
  }

  lemma MTextBehind(s: string, pos: nat) returns (b: RuleBody)
    requires pos < |s| && (s[pos] == 'M' || s[pos] == 'm') && ParseRuleM(s, pos).At?
    ensures GoodBody(b) && Matches(s, pos, RenderBody(b)) && !DigitAt(s, pos + |RenderBody(b)|)
    ensures pos + |RenderBody(b)| == ParseRuleM(s, pos).pos
  {
    hide Matches, AllDigits, Number, ParseUint, DigitAt, CharAt, RenderBody, ParseRuleM;
    var p1, p2 := NumbersOfM(s, pos);
    var month := NumeralBehind(s, pos + 1);
    var week := NumeralBehind(s, p1 + 1);
    var day := NumeralBehind(s, p2 + 1);
    b := MText(s[pos], month, week, day);
    MTextAssembles(s, pos, s[pos], month, week, day);
    MTextLength(s, pos, s[pos], month, week, day);
  }

  lemma MTextAssembles(s: string, pos: nat, c: char, month: string, week: string, day: string)
    requires var p1 := pos + 1 + |month|;
             var p2 := p1 + 1 + |week|;
             && pos < |s| && s[pos] == c && Matches(s, pos + 1, month) && CharAt(s, p1, '.') && Matches(s, p1 + 1, week)
             && CharAt(s, p2, '.') && Matches(s, p2 + 1, day)
    ensures Matches(s, pos, RenderBody(MText(c, month, week, day)))
  {
    assert RenderBody(MText(c, month, week, day)) == [c] + (month + ("." + (week + ("." + day))));
    hide *;
    var p1 := pos + 1 + |month|;
    var p2 := p1 + 1 + |week|;
    MatchesChar(s, pos, c);
    MatchesChar(s, p1, '.');
    MatchesChar(s, p2, '.');
    MatchesBoth(s, p2, ".", day);
    MatchesBoth(s, p1 + 1, week, "." + day);
    MatchesBoth(s, p1, ".", week + ("." + day));
    MatchesBoth(s, pos + 1, month, "." + (week + ("." + day)));
    MatchesBoth(s, pos, [c], month + ("." + (week + ("." + day))));
  }

  lemma BodyBehind(s: string, pos: nat) returns (b: RuleBody)
    requires pos <= |s| && ParseRuleBody(s, pos).At?
    ensures GoodBody(b) && Matches(s, pos, RenderBody(b)) && !DigitAt(s, pos + |RenderBody(b)|)
    ensures pos + |RenderBody(b)| == ParseRuleBody(s, pos).pos
  {
    hide Matches, AllDigits, Number, ParseUint, ParseRuleM;
    if s[pos] == 'M' || s[pos] == 'm' {
      b := MTextBehind(s, pos);
    } else if s[pos] == 'J' || s[pos] == 'j' {
      var day := NumeralBehind(s, pos + 1);
      b := JText(s[pos], day);
      MatchesChar(s, pos, s[pos]);
      MatchesBoth(s, pos, [s[pos]], day);
    } else {
      var day := NumeralBehind(s, pos);
      b := NText(day);
    }
  }

  lemma RuleBehind(s: string, pos: nat) returns (r: RuleText)
    requires pos <= |s| && ParseRule(s, pos).At?
    ensures GoodRule(r) && Matches(s, pos, RenderRule(r)) && EndsRule(s, pos + |RenderRule(r)|, r)
    ensures ParseRule(s, pos) == At(RuleMeaning(r), pos + |RenderRule(r)|)
  {
    hide Matches, ParseRuleBody, GoodBody, RenderBody, ParseOffset, RenderOffset, GoodOffset, RuleMeaning;
    var body := BodyBehind(s, pos);
    var p := pos + |RenderBody(body)|;
    var time := TimeBehind(s, p);
    r := RuleText(body, time);
    MatchesBoth(s, pos, RenderBody(body), RenderTime(time));
    assert EndsRule(s, pos + |RenderRule(r)|, r);
    RuleParses(s, pos, r);
  }

  lemma DstOffsetBehind(s: string, pos: nat, name: string, std: int) returns (o: Option<OffsetText>)
    requires pos <= |s| && ParseDstOffset(s, pos, std).At? && EndsName(s, pos, name)
    ensures (o.Some? ==> GoodOffset(o.value)) && Matches(s, pos, RenderOptional(o))
    ensures EndsDstOffset(s, pos + |RenderOptional(o)|, name, o)
    ensures ParseDstOffset(s, pos, std) == At(DstSeconds(o, std), pos + |RenderOptional(o)|)
  {
    hide ParseOffset, RenderOffset, OffsetSeconds, EndsOffset;
    o := None;
    EmptyMatches(s, pos);
    if DigitAt(s, pos) || SignAt(s, pos) {
      var offset := OffsetBehind(s, pos);
      o := Some(offset);
    }
  }

  /** The two rules and their commas. */
  lemma RulesBehind(s: string, pos: nat, std: int, dst: int) returns (start: RuleText, end: RuleText)
    requires pos < |s| && CharAt(s, pos, ',') && ParseRules(s, pos + 1, std, dst).At?
    ensures GoodRule(start) && GoodRule(end)
    ensures Matches(s, pos, "," + (RenderRule(start) + ("," + RenderRule(end))))
    ensures EndsRule(s, pos + 2 + |RenderRule(start)| + |RenderRule(end)|, end)
  {
    hide Matches, ParseRule, GoodRule, RenderRule, EndsRule, RuleMeaning;
    start := RuleBehind(s, pos + 1);
    var p := pos + 1 + |RenderRule(start)|;
    end := RuleBehind(s, p + 1);
    MatchesChar(s, pos, ',');
    MatchesChar(s, p, ',');
    MatchesBoth(s, p, ",", RenderRule(end));
    MatchesBoth(s, pos + 1, RenderRule(start), "," + RenderRule(end));
    MatchesBoth(s, pos, ",", RenderRule(start) + ("," + RenderRule(end)));
  }

  lemma DstBehind(s: string, pos: nat, std: int) returns (d: DstText)
    requires pos < |s| && ParseDst(s, pos, std).At?
    ensures GoodDst(d) && !d.NoDst? && Matches(s, pos, RenderDst(d))
    ensures forall name, offset :: Ends(s, pos + |RenderDst(d)|, TzText(name, offset, d))
  {
    hide Matches, SkipTzName, ParseDstOffset, ParseRules, RenderRule, RenderOptional, Name, GoodRule, GoodOffset,
         EndsRule, DstSeconds, EndsDstOffset, RenderDst, EndsName, ParseDst;
    DstSteps(s, pos, std);
    var name := NameBehind(s, pos);
    var p1 := pos + |name|;
    var offset := DstOffsetBehind(s, p1, name, std);
    var p2 := p1 + |RenderOptional(offset)|;
    if CharAt(s, p2, ',') {
      var start, end := RulesBehind(s, p2, std, DstSeconds(offset, std));
      d := DstRules(name, offset, start, end);
      DstRulesAssemble(s, pos, name, offset, start, end);
    } else {
      d := DstName(name, offset);
      MatchesBoth(s, pos, name, RenderOptional(offset));
      DstNameText(name, offset);
    }
  }

  lemma DstNameText(name: string, offset: Option<OffsetText>)
    ensures RenderDst(DstName(name, offset)) == name + RenderOptional(offset)
  {
  }

  lemma DstSteps(s: string, pos: nat, std: int)
    requires pos < |s| && ParseDst(s, pos, std).At?
    ensures var name := SkipTzName(s, pos);
            && name.At?
            && var dst := ParseDstOffset(s, name.pos, std);
            && dst.At? && (CharAt(s, dst.pos, ',') ==> ParseRules(s, dst.pos + 1, std, dst.value).At?)
  {
    hide SkipTzName, ParseDstOffset, ParseRules;
  }

  lemma DstRulesAssemble(s: string, pos: nat, name: string, offset: Option<OffsetText>, start: RuleText, end: RuleText)
    requires var p1 := pos + |name|;
             && Matches(s, pos, name) && Matches(s, p1, RenderOptional(offset))
             && Matches(s, p1 + |RenderOptional(offset)|, "," + (RenderRule(start) + ("," + RenderRule(end))))
    ensures var d := DstRules(name, offset, start, end);
            && Matches(s, pos, RenderDst(d))
            && |RenderDst(d)| == |name| + |RenderOptional(offset)| + 2 + |RenderRule(start)| + |RenderRule(end)|
  {
    hide Matches, RenderOptional, RenderRule;
    var rules := "," + (RenderRule(start) + ("," + RenderRule(end)));
    MatchesBoth(s, pos + |name|, RenderOptional(offset), rules);
    MatchesBoth(s, pos, name, RenderOptional(offset) + rules);
  }

  lemma TextBehind(s: string) returns (t: TzText)
    requires ParsePosixTz(s).At?
    ensures Good(t) && Matches(s, 0, Render(t)) && Ends(s, |Render(t)|, t)
  {
    hide Matches, SkipTzName, ParseOffset, ParseDst, RenderDst, RenderOffset, GoodOffset, GoodDst, Name, OffsetSeconds;
    var name := NameBehind(s, 0);
    var p1 := |name|;
    var offset := OffsetBehind(s, p1);
    var p2 := p1 + |RenderOffset(offset)|;
    var dst := NoDst;
    if AlphaAt(s, p2) || CharAt(s, p2, '<') {
      dst := DstBehind(s, p2, OffsetSeconds(offset));
    } else {
      NoDstBehind(s, p2);
    }
    t := TzText(name, offset, dst);
    MatchesBoth(s, p1, RenderOffset(offset), RenderDst(dst));
    MatchesBoth(s, 0, name, RenderOffset(offset) + RenderDst(dst));
  }

  lemma NoDstBehind(s: string, pos: nat)
    requires pos <= |s|
    ensures RenderDst(NoDst) == "" && GoodDst(NoDst) && Matches(s, pos, RenderDst(NoDst))
  {
  }

  /** Everything the parser accepts is a well-formed text and something after it that is ignored. */
  lemma ParsedWasRendered(s: string) returns (t: TzText, rest: string)
    requires ParsePosixTz(s).At?
    ensures Good(t) && s == Render(t) + rest && Ends(s, |Render(t)|, t)
    ensures ParsePosixTz(s) == At(Meaning(t), |Render(t)|)
  {
    hide Ends, Good, Meaning, ParsePosixTz, Render;
    t := TextBehind(s);
    TextParses(s, t);
    MatchesSlice(s, 0, Render(t));
    rest := s[|Render(t)|..];
  }

  ghost predicate IsTzString(s: string, t: TzText, rest: string) {
    Good(t) && s == Render(t) + rest && Ends(s, |Render(t)|, t)
  }

  /** The language of the parser. */
  lemma Accepts(s: string)
    ensures ParsePosixTz(s).At? <==> exists t, rest :: IsTzString(s, t, rest)
  {
    if ParsePosixTz(s).At? {
      var t, rest := ParsedWasRendered(s);
      assert IsTzString(s, t, rest);
    }
    if t, rest :| IsTzString(s, t, rest) {
      RenderedIsParsed(t, rest);
    }
  }
}
