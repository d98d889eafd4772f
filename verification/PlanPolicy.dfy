/** Which plan changes are permitted: the rule text format, its parser, and the update check. */
module PlanPolicy {
  import opened Types
  import opened Strings
  import opened Metadata

  datatype Rule = Rule(oldPlan: string, newPlan: string)

  datatype Checker = Checker(sizeRules: seq<Rule>, slaRules: seq<Rule>)

  // ---------------------------------------------------------------- Parsing

  function ParseRule(segment: string): Result<Rule>
  {
    var a := Split(segment, '>');
    if |a| != 2 then Err(InvalidRule(segment)) else Ok(Rule(a[0], a[1]))
  }

  function ParseSegments(segments: seq<string>): Result<seq<Rule>>
  {
    if segments == [] then Ok([])
    else
      var rule :- ParseRule(segments[0]);
      var rest :- ParseSegments(segments[1..]);
      Ok([rule] + rest)
  }

  function ParseRules(text: string): Result<seq<Rule>>
  {
    if text == "" then Ok([]) else ParseSegments(Split(text, '|'))
  }

  function ParseChecker(sizeRules: string, slaRules: string): Result<Checker>
  {
    var sizes :- ParseRules(sizeRules);
    var slas :- ParseRules(slaRules);
    Ok(Checker(sizes, slas))
  }

  lemma {:induction false} ParseSegmentsAppend(segments: seq<string>, last: string)
    ensures ParseSegments(segments + [last])
         == match ParseSegments(segments)
            case Err(e) => Err(e)
            case Ok(rules) =>
              match ParseRule(last) case Err(e) => Err(e) case Ok(r) => Ok(rules + [r])
  {
    if segments == [] {
      assert segments + [last] == [last];
      assert [last][1..] == [];
      assert ParseSegments([]) == Ok([]);
      if ParseRule(last).Ok? {
        assert [ParseRule(last).value] + [] == [] + [ParseRule(last).value];
      }
    } else {
      assert (segments + [last])[1..] == segments[1..] + [last];
      ParseSegmentsAppend(segments[1..], last);
      match ParseSegments(segments[1..] + [last]) {
        case Ok(rules) =>
          if ParseRule(segments[0]).Ok? {
            var r := ParseRule(segments[0]).value;
            var init := ParseSegments(segments[1..]).value;
            assert [r] + (init + [ParseRule(last).value]) == ([r] + init) + [ParseRule(last).value];
          }
        case Err(_) =>
      }
    }
  }

  lemma {:induction false} ParseSegmentsPrefixError(segments: seq<string>, more: seq<string>)
    requires ParseSegments(segments).Err?
    ensures ParseSegments(segments + more) == ParseSegments(segments)
  {
    assert segments != [];
    assert (segments + more)[1..] == segments[1..] + more;
    if ParseRule(segments[0]).Ok? {
      ParseSegmentsPrefixError(segments[1..], more);
    }
  }

  /** The parsing loop: rules are appended one by one, and the first bad segment ends it. */
  method ParsePlanUpdateRules(text: string) returns (r: Result<seq<Rule>>)
    ensures r == ParseRules(text)
  {
    var rules: seq<Rule> := [];
    if text == "" {
      return Ok(rules);
    }
    var rs := Split(text, '|');
    for i := 0 to |rs|
      invariant ParseSegments(rs[..i]) == Ok(rules)
    {
      var a := Split(rs[i], '>');
      assert rs[..i + 1] == rs[..i] + [rs[i]];
      ParseSegmentsAppend(rs[..i], rs[i]);
      if |a| != 2 {
        ParseSegmentsPrefixError(rs[..i + 1], rs[i + 1..]);
        assert rs[..i + 1] + rs[i + 1..] == rs;
        return Err(InvalidRule(rs[i]));
      }
      rules := rules + [Rule(a[0], a[1])];
    }
    assert rs[..|rs|] == rs;
    r := Ok(rules);
  }

  // ---------------------------------------------------------------- Printing, and the inverse laws

  function PrintRule(rule: Rule): string
  {
    rule.oldPlan + ">" + rule.newPlan
  }

  function PrintSegments(rules: seq<Rule>): (segments: seq<string>)
    ensures |segments| == |rules|
    ensures forall i :: 0 <= i < |rules| ==> segments[i] == PrintRule(rules[i])
  {
    seq(|rules|, i requires 0 <= i < |rules| => PrintRule(rules[i]))
  }

  function PrintRules(rules: seq<Rule>): string
  {
    Join(PrintSegments(rules), '|')
  }

  /** The rule can be written down: neither name contains a separator of the format. */
  predicate Printable(rule: Rule)
  {
    && '>' !in rule.oldPlan && '>' !in rule.newPlan
    && '|' !in rule.oldPlan && '|' !in rule.newPlan
  }

  lemma ParsePrintRule(rule: Rule)
    requires '>' !in rule.oldPlan && '>' !in rule.newPlan
    ensures ParseRule(PrintRule(rule)) == Ok(rule)
  {
    SplitPeel(rule.oldPlan, rule.newPlan, '>');
    SplitWhole(rule.newPlan, '>');
  }

  lemma PrintParseRule(segment: string)
    requires ParseRule(segment).Ok?
    ensures PrintRule(ParseRule(segment).value) == segment
  {
    var a := Split(segment, '>');
    JoinSplit(segment, '>');
    assert a == [a[0], a[1]];
    assert Join(a[1..], '>') == a[1];
  }

  lemma {:induction false} ParsePrintSegments(rules: seq<Rule>)
    requires forall i :: 0 <= i < |rules| ==> Printable(rules[i])
    ensures ParseSegments(PrintSegments(rules)) == Ok(rules)
  {
    if rules == [] {
    } else {
      ParsePrintRule(rules[0]);
      assert PrintSegments(rules)[1..] == PrintSegments(rules[1..]);
      ParsePrintSegments(rules[1..]);
      assert [rules[0]] + rules[1..] == rules;
    }
  }

  lemma {:induction false} PrintParseSegments(segments: seq<string>)
    requires ParseSegments(segments).Ok?
    ensures PrintSegments(ParseSegments(segments).value) == segments
  {
    if segments == [] {
    } else {
      PrintParseRule(segments[0]);
      PrintParseSegments(segments[1..]);
      var rest := ParseSegments(segments[1..]).value;
      var rules := [ParseRule(segments[0]).value] + rest;
      assert PrintSegments(rules) == [segments[0]] + PrintSegments(rest);
    }
  }

  /** Parsing undoes printing on every list of printable rules, the empty list included. */
  lemma ParseAfterPrint(rules: seq<Rule>)
    requires forall i :: 0 <= i < |rules| ==> Printable(rules[i])
    ensures ParseRules(PrintRules(rules)) == Ok(rules)
  {
    if rules != [] {
      var segments := PrintSegments(rules);
      forall i | 0 <= i < |segments| ensures '|' !in segments[i] {
        assert segments[i] == PrintRule(rules[i]);
      }
      SplitJoin(segments, '|');
      ParsePrintSegments(rules);
      PrintedTextIsNotEmpty(rules);
    }
  }

  lemma PrintedTextIsNotEmpty(rules: seq<Rule>)
    requires rules != []
    ensures PrintRules(rules) != ""
  {
    assert PrintSegments(rules)[0] == PrintRule(rules[0]);
    assert |PrintRule(rules[0])| >= 1;
  }

  /** Printing undoes parsing on every accepted text. */
  lemma PrintAfterParse(text: string)
    requires ParseRules(text).Ok?
    ensures PrintRules(ParseRules(text).value) == text
  {
    if text != "" {
      PrintParseSegments(Split(text, '|'));
      JoinSplit(text, '|');
    }
  }

  lemma {:induction false} SegmentsAcceptedIff(segments: seq<string>)
    ensures ParseSegments(segments).Ok? <==> forall segment :: segment in segments ==> ParseRule(segment).Ok?
  {
    if segments == [] {
    } else {
      SegmentsAcceptedIff(segments[1..]);
      assert segments == [segments[0]] + segments[1..];
    }
  }

  /** A rule text is accepted exactly when it is empty or each `|` segment contains exactly one `>`. */
  lemma AcceptedIff(text: string)
    ensures ParseRules(text).Ok?
            <==> text == "" || forall segment :: segment in Split(text, '|') ==> Count(segment, '>') == 1
  {
    var segments := Split(text, '|');
    SegmentsAcceptedIff(segments);
    if text != "" {
      if ParseRules(text).Ok? {
        forall segment | segment in segments ensures Count(segment, '>') == 1 {
          SplitCounts(segment, '>');
          assert ParseRule(segment).Ok?;
        }
      } else {
        var segment :| segment in segments && ParseRule(segment).Err?;
        SplitCounts(segment, '>');
      }
    }
  }

  // ---------------------------------------------------------------- Checking an update

  /** The early-exit loop over a rule list. */
  method AnyRuleAllows(rules: seq<Rule>, a: string, b: string) returns (allowed: bool)
    ensures allowed <==> Rule(a, b) in rules
  {
    for i := 0 to |rules|
      invariant Rule(a, b) !in rules[..i]
    {
      if a == rules[i].oldPlan && b == rules[i].newPlan {
        return true;
      }
    }
    return false;
  }

  predicate AllowUpdate(pc: Checker, a: Labels, b: Labels)
  {
    if a.serviceId != b.serviceId then false
    else if a.planSize != b.planSize && a.sla != b.sla then false
    else if a.planSize != b.planSize then Rule(a.planSize, b.planSize) in pc.sizeRules
    else if a.sla != b.sla then Rule(a.sla, b.sla) in pc.slaRules
    else true
  }

  /** The update check as the source runs it. */
  method CheckUpdate(pc: Checker, a: Labels, b: Labels) returns (allowed: bool)
    ensures allowed == AllowUpdate(pc, a, b)
  {
    if a.serviceId != b.serviceId {
      return false;
    }
    if a.planSize != b.planSize && a.sla != b.sla {
      return false;
    }
    if a.planSize != b.planSize {
      allowed := AnyRuleAllows(pc.sizeRules, a.planSize, b.planSize);
      return;
    }
    if a.sla != b.sla {
      allowed := AnyRuleAllows(pc.slaRules, a.sla, b.sla);
      return;
    }
    return true;
  }

  lemma SeqMember<T>(s: seq<T>, i: int, x: T)
    requires 0 <= i < |s| && s[i] == x
    ensures x in s
  {
  }

  /** A parsed rule list contains the rule from `a` to `b` exactly when the text `a>b` is one of the
      segments of the rule text: rule order and duplicates do not matter. */
  lemma RuleAllowsIffSegment(text: string, a: string, b: string)
    requires ParseRules(text).Ok?
    ensures Rule(a, b) in ParseRules(text).value <==> text != "" && PrintRule(Rule(a, b)) in Split(text, '|')
  {
    if text != "" {
      var rules := ParseRules(text).value;
      var segments := Split(text, '|');
      PrintParseSegments(segments);
      if Rule(a, b) in rules {
        var i :| 0 <= i < |rules| && rules[i] == Rule(a, b);
        SeqMember(segments, i, PrintRule(Rule(a, b)));
      }
      if PrintRule(Rule(a, b)) in segments {
        var i :| 0 <= i < |segments| && segments[i] == PrintRule(Rule(a, b));
        AcceptedIff(text);
        OneSeparatorSplit(a, b);
        ParsePrintRule(Rule(a, b));
        PrintRuleInjective(rules[i], Rule(a, b));
        SeqMember(rules, i, Rule(a, b));
      }
    }
  }

  /** What two accepted rule texts permit: within one service, no change of size and SLA at all, or a change of
      the one that its own text spells out as a segment, or of the other. */
  lemma PolicyFromText(sizeText: string, slaText: string, a: Labels, b: Labels)
    requires ParseChecker(sizeText, slaText).Ok?
    ensures AllowUpdate(ParseChecker(sizeText, slaText).value, a, b)
            <==> a.serviceId == b.serviceId
                 && (a.sla == b.sla || a.planSize == b.planSize)
                 && (a.planSize != b.planSize ==>
                       sizeText != "" && a.planSize + ">" + b.planSize in Split(sizeText, '|'))
                 && (a.sla != b.sla ==> slaText != "" && a.sla + ">" + b.sla in Split(slaText, '|'))
  {
    RuleAllowsIffSegment(sizeText, a.planSize, b.planSize);
    RuleAllowsIffSegment(slaText, a.sla, b.sla);
  }

  lemma {:induction false} CountConcat(s: string, t: string, c: char)
    ensures Count(s + t, c) == Count(s, c) + Count(t, c)
  {
    if s == "" {
      assert s + t == t;
    } else {
      assert (s + t)[1..] == s[1..] + t;
      CountConcat(s[1..], t, c);
    }
  }

  lemma {:induction false} CountZero(s: string, c: char)
    ensures Count(s, c) == 0 <==> c !in s
  {
    if s == "" {
    } else {
      CountZero(s[1..], c);
      assert c in s <==> s[0] == c || c in s[1..];
    }
  }

  lemma OneSeparatorSplit(a: string, b: string)
    requires Count(PrintRule(Rule(a, b)), '>') == 1
    ensures '>' !in a && '>' !in b
  {
    CountConcat(a + ">", b, '>');
    CountConcat(a, ">", '>');
    CountZero(a, '>');
    CountZero(b, '>');
    assert Count(">", '>') == 1;
  }

  lemma PrintRuleInjective(r: Rule, q: Rule)
    requires PrintRule(r) == PrintRule(q)
    requires '>' !in q.oldPlan && '>' !in q.newPlan
    requires Count(PrintRule(r), '>') == 1
    ensures r == q
  {
    OneSeparatorSplit(r.oldPlan, r.newPlan);
    ParsePrintRule(r);
    ParsePrintRule(q);
  }

  /** Between the plans `{size}-{x}` and `{size}-{y}` of one service only the SLA rules decide, provided both
      names give the size back although they are cut with different suffixes. If just one of them does, the
      update is refused whatever the rules. Without any proviso: it is allowed exactly when the two sizes
      read back are the same and the SLA rules allow it. */
  lemma SameSizeDecidedBySla(pc: Checker, a: LabelMap, b: LabelMap, size: string, x: string, y: string)
    requires Text(a, PlanNameLabel) == size + Suffix(x) && Text(a, SlaLabel) == x
    requires Text(b, PlanNameLabel) == size + Suffix(y) && Text(b, SlaLabel) == y
    requires ParseLabels(a).Ok? && ParseLabels(b).Ok?
    requires Text(a, ServiceIdLabel) == Text(b, ServiceIdLabel) && x != y
    ensures var allowed := AllowUpdate(pc, ParseLabels(a).value, ParseLabels(b).value);
            && (KeepsSize(size, x) && KeepsSize(size, y) ==> (allowed <==> Rule(x, y) in pc.slaRules))
            && (KeepsSize(size, x) != KeepsSize(size, y) ==> !allowed)
            && (allowed <==> PlanSize(size + Suffix(x), x) == PlanSize(size + Suffix(y), y)
                             && Rule(x, y) in pc.slaRules)
  {
    PlanSizeRecovered(size, x);
    PlanSizeRecovered(size, y);
  }

  /** Between the plans `{small}-{x}` and `{large}-{y}` of one service, provided both names give their sizes
      back, only the size rules decide, and changing the SLA along with the size is refused. Without any
      proviso the rules apply to the sizes read back. */
  lemma SizeChangeDecidedBySizeRules(pc: Checker, a: LabelMap, b: LabelMap, small: string, large: string,
                                     x: string, y: string)
    requires Text(a, PlanNameLabel) == small + Suffix(x) && Text(a, SlaLabel) == x
    requires Text(b, PlanNameLabel) == large + Suffix(y) && Text(b, SlaLabel) == y
    requires ParseLabels(a).Ok? && ParseLabels(b).Ok?
    requires Text(a, ServiceIdLabel) == Text(b, ServiceIdLabel) && small != large
    ensures var allowed := AllowUpdate(pc, ParseLabels(a).value, ParseLabels(b).value);
            var from, to := PlanSize(small + Suffix(x), x), PlanSize(large + Suffix(y), y);
            && (KeepsSize(small, x) && KeepsSize(large, y) ==>
                  (allowed <==> x == y && Rule(small, large) in pc.sizeRules))
            && (from != to ==> (allowed <==> x == y && Rule(from, to) in pc.sizeRules))
            && (from == to ==> (allowed <==> x == y || Rule(x, y) in pc.slaRules))
  {
    PlanSizeRecovered(small, x);
    PlanSizeRecovered(large, y);
  }

  // ---------------------------------------------------------------- Reachability along rules

  /** The names of `path` follow one another along rules. */
  ghost predicate Path(rules: seq<Rule>, path: seq<string>)
  {
    |path| >= 1 && forall i :: 0 <= i < |path| - 1 ==> Rule(path[i], path[i + 1]) in rules
  }

  ghost predicate PathBetween(rules: seq<Rule>, path: seq<string>, a: string, b: string)
  {
    Path(rules, path) && path[0] == a && path[|path| - 1] == b
  }

  /** The reflexive and transitive closure of the rules. */
  ghost predicate Reaches(rules: seq<Rule>, a: string, b: string)
  {
    exists path :: PathBetween(rules, path, a, b)
  }

  lemma ReachesSelf(rules: seq<Rule>, a: string)
    ensures Reaches(rules, a, a)
  {
    assert PathBetween(rules, [a], a, a);
  }

  lemma ReachesStep(rules: seq<Rule>, a: string, b: string, c: string)
    requires Reaches(rules, a, b)
    requires b == c || Rule(b, c) in rules
    ensures Reaches(rules, a, c)
  {
    var path :| PathBetween(rules, path, a, b);
    if b != c {
      assert PathBetween(rules, path + [c], a, c);
    }
  }

  /** An accepted update moves the size and the SLA each along its own rules, or not at all. */
  lemma AllowedUpdateFollowsRules(pc: Checker, a: Labels, b: Labels)
    requires AllowUpdate(pc, a, b)
    ensures a.serviceId == b.serviceId
    ensures a.planSize == b.planSize || Rule(a.planSize, b.planSize) in pc.sizeRules
    ensures a.sla == b.sla || Rule(a.sla, b.sla) in pc.slaRules
    ensures a.planSize == b.planSize || a.sla == b.sla
  {
  }
}
