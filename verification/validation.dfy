/** The rule-based code checker: `checkRule` decides one rule against the
    submitted text, `validateCode` runs a level's rules in order and builds
    the result shown to the learner. */
module Validation {
  import opened Text
  import opened Normalization

  datatype Option<+T> = None | Some(value: T)

  /** One declarative check. The source keeps a `type` tag beside a
      `string | string[]` value; here each kind carries exactly the operand
      shape it reads. `message` is shown when the rule fails. */
  datatype Rule =
    | Contains(value: string, message: string)
    | NotContains(value: string, message: string)
    | Regex(pattern: string, message: string)
    | ContainsAll(values: seq<string>, message: string)
    | ContainsAny(values: seq<string>, message: string)

  /** What `new RegExp(pattern, flags).test(input)` comes to: the
      constructor throws a syntax error, or `test` answers. */
  datatype RegexOutcome = SyntaxError | Tested(matched: bool)

  /** The JavaScript regular-expression engine, taken as given:
      (pattern source, flags, input) to outcome. */
  type RegexEngine = (string, string, string) -> RegexOutcome

  /** Every pattern is compiled case-insensitive and global. */
  const RegexFlags: string := "gi"

  /** `details` is absent on success. */
  datatype ValidationResult = ValidationResult(success: bool, message: string, details: Option<seq<string>>)

  const AllPassedMessage: string := "All checks passed!"

  /** The text every substring check searches: normalised, then lower-cased. */
  function SearchText(code: string): string {
    Lower(Normalize(code))
  }

  /** `normalizedCode.toLowerCase().includes(operand.toLowerCase())` */
  predicate Mentions(code: string, operand: string) {
    Includes(SearchText(code), Lower(operand))
  }

  /** `checkRule`: whether one rule holds for the submitted code. A pattern
      that does not compile makes its rule fail; a pattern that compiles is
      tested against the raw code, not the normalised one. */
  function CheckRule(code: string, rule: Rule, engine: RegexEngine): bool {
    match rule
    case Contains(v, _) => Mentions(code, v)
    case NotContains(v, _) => !Mentions(code, v)
    case Regex(p, _) =>
      (match engine(p, RegexFlags, code)
       case SyntaxError => false
       case Tested(m) => m)
    case ContainsAll(vs, _) => forall i | 0 <= i < |vs| :: Mentions(code, vs[i])
    case ContainsAny(vs, _) => exists i | 0 <= i < |vs| :: Mentions(code, vs[i])
  }

  // ----- Properties of a single rule -----

  /** For the same operand, `notContains` is exactly the negation of
      `contains`. */
  lemma {:induction false} NotContainsNegatesContains(code: string, v: string, m1: string, m2: string, engine: RegexEngine)
    ensures CheckRule(code, NotContains(v, m1), engine) == !CheckRule(code, Contains(v, m2), engine)
  {
  }

  /** The list rules on the empty list and on one element, and the empty
      operand. */
  lemma {:induction false} ListRuleEdgeCases(code: string, v: string, m: string, engine: RegexEngine)
    ensures CheckRule(code, ContainsAll([], m), engine)
    ensures !CheckRule(code, ContainsAny([], m), engine)
    ensures CheckRule(code, ContainsAll([v], m), engine) == CheckRule(code, Contains(v, m), engine)
    ensures CheckRule(code, ContainsAny([v], m), engine) == CheckRule(code, Contains(v, m), engine)
    ensures CheckRule(code, Contains("", m), engine)
    ensures !CheckRule(code, NotContains("", m), engine)
  {
    assert Lower("") == "";
    assert [v][0] == v;
  }

  /** A pattern that does not compile fails its rule; it never escapes as an
      error. */
  lemma {:induction false} RegexSyntaxErrorFails(code: string, pattern: string, m: string, engine: RegexEngine)
    requires engine(pattern, RegexFlags, code) == SyntaxError
    ensures !CheckRule(code, Regex(pattern, m), engine)
  {
  }

  /** An engine standing in for the pattern `\n`: it matches any input with
      a line feed. */
  function LineFeedEngine(pattern: string, flags: string, input: string): RegexOutcome {
    Tested(exists i | 0 <= i < |input| :: input[i] == '\n')
  }

  lemma {:induction false} NoLineFeedAroundSpace(before: string, after: string)
    requires forall i :: 0 <= i < |before| ==> before[i] != '\n'
    requires forall i :: 0 <= i < |after| ==> after[i] != '\n'
    ensures LineFeedEngine("\\n", RegexFlags, before + [' '] + after) == Tested(false)
  {
    var sp := before + [' '] + after;
    forall i | 0 <= i < |sp| ensures sp[i] != '\n' {
      if i < |before| {
        assert sp[i] == before[i];
      } else if i == |before| {
        assert sp[i] == ' ';
      } else {
        assert sp[i] == after[i - |before| - 1];
      }
    }
  }

  /** Patterns see the raw text: replacing a line feed by a space leaves the
      normalised text, and so every substring rule, unchanged, but a pattern
      rule for `\n` passes on the one and fails on the other. */
  lemma {:induction false} RegexSeesRawText(before: string, after: string, m: string)
    requires forall i :: 0 <= i < |before| ==> before[i] != '\n'
    requires forall i :: 0 <= i < |after| ==> after[i] != '\n'
    ensures Normalize(before + ['\n'] + after) == Normalize(before + [' '] + after)
    ensures CheckRule(before + ['\n'] + after, Regex("\\n", m), LineFeedEngine)
    ensures !CheckRule(before + [' '] + after, Regex("\\n", m), LineFeedEngine)
  {
    WhitespaceInvariance(before, after, '\n', ' ');
    var lf := before + ['\n'] + after;
    assert lf[|before|] == '\n';
    NoLineFeedAroundSpace(before, after);
  }

  /** Two lists of operands that agree up to letter case. */
  predicate SameOperandsUpToCase(xs: seq<string>, ys: seq<string>) {
    |xs| == |ys| && forall i :: 0 <= i < |xs| ==> Lower(xs[i]) == Lower(ys[i])
  }

  /** Two substring rules of the same kind whose operands agree up to letter
      case. */
  predicate SameUpToCase(r1: Rule, r2: Rule) {
    match r1
    case Contains(a, _) => r2.Contains? && Lower(a) == Lower(r2.value)
    case NotContains(a, _) => r2.NotContains? && Lower(a) == Lower(r2.value)
    case Regex(_, _) => false
    case ContainsAll(xs, _) => r2.ContainsAll? && SameOperandsUpToCase(xs, r2.values)
    case ContainsAny(xs, _) => r2.ContainsAny? && SameOperandsUpToCase(xs, r2.values)
  }

  lemma {:induction false} SameOperandsSameMentions(code1: string, code2: string, xs: seq<string>, ys: seq<string>)
    requires SearchText(code1) == SearchText(code2)
    requires SameOperandsUpToCase(xs, ys)
    ensures forall i :: 0 <= i < |xs| ==> (Mentions(code1, xs[i]) <==> Mentions(code2, ys[i]))
  {
    forall i | 0 <= i < |xs|
      ensures Mentions(code1, xs[i]) <==> Mentions(code2, ys[i])
    {
      assert Lower(xs[i]) == Lower(ys[i]);
    }
  }

  lemma {:induction false} ListRulesSameOutcome(code1: string, code2: string, xs: seq<string>, ys: seq<string>, m1: string, m2: string, engine: RegexEngine)
    requires SearchText(code1) == SearchText(code2)
    requires SameOperandsUpToCase(xs, ys)
    ensures CheckRule(code1, ContainsAll(xs, m1), engine) == CheckRule(code2, ContainsAll(ys, m2), engine)
    ensures CheckRule(code1, ContainsAny(xs, m1), engine) == CheckRule(code2, ContainsAny(ys, m2), engine)
  {
    SameOperandsSameMentions(code1, code2, xs, ys);
  }

  /** A substring rule's outcome depends on the search text alone. */
  lemma {:induction false} SameSearchTextSameOutcome(code1: string, code2: string, r1: Rule, r2: Rule, engine: RegexEngine)
    requires SearchText(code1) == SearchText(code2)
    requires SameUpToCase(r1, r2)
    ensures CheckRule(code1, r1, engine) == CheckRule(code2, r2, engine)
  {
    if r1.ContainsAll? || r1.ContainsAny? {
      ListRulesSameOutcome(code1, code2, r1.values, r2.values, r1.message, r2.message, engine);
      assert r1 == ContainsAll(r1.values, r1.message) || r1 == ContainsAny(r1.values, r1.message);
      assert r2 == ContainsAll(r2.values, r2.message) || r2 == ContainsAny(r2.values, r2.message);
    }
  }

  lemma {:induction false} SearchTextUpToCase(code1: string, code2: string)
    requires Lower(code1) == Lower(code2)
    ensures SearchText(code1) == SearchText(code2)
  {
    NormalizeLower(code1);
    NormalizeLower(code2);
  }

  /** Substring rules ignore letter case, in the code and in the operand. */
  lemma {:induction false} SubstringRulesIgnoreCase(code1: string, code2: string, r1: Rule, r2: Rule, engine: RegexEngine)
    requires Lower(code1) == Lower(code2)
    requires SameUpToCase(r1, r2)
    ensures CheckRule(code1, r1, engine) == CheckRule(code2, r2, engine)
  {
    SearchTextUpToCase(code1, code2);
    SameSearchTextSameOutcome(code1, code2, r1, r2, engine);
  }

  /** Substring rules do not see how long a white-space run is, nor which
      white-space characters make it up. */
  lemma {:induction false} SubstringRulesIgnoreSpacing(before: string, after: string, c: char, d: char, rule: Rule, engine: RegexEngine)
    requires IsSpace(c) && IsSpace(d) && !rule.Regex?
    ensures CheckRule(before + [c] + after, rule, engine) == CheckRule(before + [c, d] + after, rule, engine)
    ensures CheckRule(before + [c] + after, rule, engine) == CheckRule(before + [d] + after, rule, engine)
  {
    WhitespaceInvariance(before, after, c, d);
    assert SameUpToCase(rule, rule);
    SameSearchTextSameOutcome(before + [c] + after, before + [c, d] + after, rule, rule, engine);
    SameSearchTextSameOutcome(before + [c] + after, before + [d] + after, rule, rule, engine);
  }

  /** An operand holding a white-space character other than ' ', or two
      white-space characters in a row, is never found: normalisation has
      removed every such spot from the text. */
  lemma {:induction false} UnmatchableOperand(code: string, v: string, i: nat)
    requires i < |v| && IsSpace(v[i])
    requires v[i] != ' ' || (i + 1 < |v| && IsSpace(v[i + 1]))
    ensures !Mentions(code, v)
  {
    var n := Normalize(code);
    NormalizeShape(code);
    var lv := Lower(v);
    IncludesOccursAt(Lower(n), lv);
  }

  /** White-space-only code (the empty submission included) mentions only
      the empty operand. */
  lemma {:induction false} BlankCodeMentionsNothing(code: string, v: string)
    requires forall i :: 0 <= i < |code| ==> IsSpace(code[i])
    ensures Mentions(code, v) <==> v == ""
  {
    BlankCodeNormalizesToEmpty(code);
    assert SearchText(code) == "";
  }

  /** A normal-form piece of the code whose lower-case form is the operand's
      makes the operand found. */
  lemma {:induction false} PieceMentions(before: string, piece: string, after: string, v: string)
    requires piece != [] && NormalForm(piece) && Lower(piece) == Lower(v)
    ensures Mentions(before + piece + after, v)
  {
    NormalPieceSurvives(before, piece, after);
    IncludesLower(Normalize(before + piece + after), piece);
  }

  // ----- The failure list -----

  /** The messages of the failing rules, in rule order. */
  function FailedMessages(code: string, rules: seq<Rule>, engine: RegexEngine): seq<string> {
    if rules == [] then []
    else
      var last := rules[|rules| - 1];
      FailedMessages(code, rules[..|rules| - 1], engine)
      + (if CheckRule(code, last, engine) then [] else [last.message])
  }

  /** The positions of the failing rules, ascending. */
  function FailingPositions(code: string, rules: seq<Rule>, engine: RegexEngine): seq<nat> {
    if rules == [] then []
    else
      var n := |rules| - 1;
      FailingPositions(code, rules[..n], engine)
      + (if CheckRule(code, rules[n], engine) then [] else [n])
  }

  /** The j-th failure message is the message of the rule at the j-th
      failing position. */
  lemma {:induction false} FailedMessagesAtPositions(code: string, rules: seq<Rule>, engine: RegexEngine)
    ensures var f, p := FailedMessages(code, rules, engine), FailingPositions(code, rules, engine);
      && |f| == |p|
      && (forall j :: 0 <= j < |p| ==> p[j] < |rules| && f[j] == rules[p[j]].message)
  {
    if rules != [] {
      var n := |rules| - 1;
      FailedMessagesAtPositions(code, rules[..n], engine);
      var f0, p0 := FailedMessages(code, rules[..n], engine), FailingPositions(code, rules[..n], engine);
      var f, p := FailedMessages(code, rules, engine), FailingPositions(code, rules, engine);
      forall j | 0 <= j < |p|
        ensures p[j] < |rules| && f[j] == rules[p[j]].message
      {
        if j < |p0| {
          assert p[j] == p0[j] && f[j] == f0[j];
          assert rules[..n][p0[j]] == rules[p0[j]];
        }
      }
    }
  }

  /** The failing positions are in range and strictly ascending. */
  lemma {:induction false} FailingPositionsAscending(code: string, rules: seq<Rule>, engine: RegexEngine)
    ensures forall j :: 0 <= j < |FailingPositions(code, rules, engine)| ==>
      FailingPositions(code, rules, engine)[j] < |rules|
    ensures forall j, k :: 0 <= j < k < |FailingPositions(code, rules, engine)| ==>
      FailingPositions(code, rules, engine)[j] < FailingPositions(code, rules, engine)[k]
  {
    if rules != [] {
      FailingPositionsAscending(code, rules[..|rules| - 1], engine);
    }
  }

  /** A position is listed exactly when the rule there fails. */
  lemma {:induction false} FailingPositionsExact(code: string, rules: seq<Rule>, engine: RegexEngine)
    ensures forall i :: 0 <= i < |rules| ==>
      (i in FailingPositions(code, rules, engine) <==> !CheckRule(code, rules[i], engine))
  {
    if rules != [] {
      var n := |rules| - 1;
      FailingPositionsExact(code, rules[..n], engine);
      FailingPositionsAscending(code, rules[..n], engine);
      var p0 := FailingPositions(code, rules[..n], engine);
      var p := FailingPositions(code, rules, engine);
      assert n !in p0;
      forall i | 0 <= i < n
        ensures i in p <==> !CheckRule(code, rules[i], engine)
      {
        assert rules[..n][i] == rules[i];
      }
    }
  }

  /** The failure list holds one message per failing rule, in rule order,
      duplicates kept: its j-th entry is the message of the j-th failing
      rule. */
  lemma {:induction false} FailedMessagesAreFailingRules(code: string, rules: seq<Rule>, engine: RegexEngine)
    ensures var f, p := FailedMessages(code, rules, engine), FailingPositions(code, rules, engine);
      && |f| == |p|
      && (forall j :: 0 <= j < |p| ==> p[j] < |rules| && f[j] == rules[p[j]].message)
      && (forall j, k :: 0 <= j < k < |p| ==> p[j] < p[k])
      && (forall i :: 0 <= i < |rules| ==> (i in p <==> !CheckRule(code, rules[i], engine)))
  {
    FailedMessagesAtPositions(code, rules, engine);
    FailingPositionsAscending(code, rules, engine);
    FailingPositionsExact(code, rules, engine);
  }

  /** One more rule adds its message to the end exactly when it fails. */
  lemma {:induction false} FailedMessagesSnoc(code: string, rules: seq<Rule>, r: Rule, engine: RegexEngine)
    ensures FailedMessages(code, rules + [r], engine) ==
      FailedMessages(code, rules, engine) + (if CheckRule(code, r, engine) then [] else [r.message])
  {
    assert (rules + [r])[..|rules|] == rules;
  }

  /** Three rules: the messages of the failing ones, in order. */
  lemma {:induction false} ThreeRulesMessages(code: string, r0: Rule, r1: Rule, r2: Rule, engine: RegexEngine)
    ensures FailedMessages(code, [r0, r1, r2], engine) ==
      (if CheckRule(code, r0, engine) then [] else [r0.message])
      + (if CheckRule(code, r1, engine) then [] else [r1.message])
      + (if CheckRule(code, r2, engine) then [] else [r2.message])
  {
    FailedMessagesSnoc(code, [], r0, engine);
    assert [] + [r0] == [r0];
    FailedMessagesSnoc(code, [r0], r1, engine);
    assert [r0] + [r1] == [r0, r1];
    FailedMessagesSnoc(code, [r0, r1], r2, engine);
    assert [r0, r1] + [r2] == [r0, r1, r2];
  }

  /** Six rules of which only the second and the third fail. */
  lemma {:induction false} SecondAndThirdMessages(code: string, r0: Rule, r1: Rule, r2: Rule, r3: Rule, r4: Rule, r5: Rule, engine: RegexEngine)
    requires CheckRule(code, r0, engine) && !CheckRule(code, r1, engine) && !CheckRule(code, r2, engine)
    requires CheckRule(code, r3, engine) && CheckRule(code, r4, engine) && CheckRule(code, r5, engine)
    ensures FailedMessages(code, [r0, r1, r2, r3, r4, r5], engine) == [r1.message, r2.message]
  {
    ThreeRulesMessages(code, r0, r1, r2, engine);
    ThreeRulesMessages(code, r3, r4, r5, engine);
    FailedMessagesAppend(code, [r0, r1, r2], [r3, r4, r5], engine);
    assert [r0, r1, r2] + [r3, r4, r5] == [r0, r1, r2, r3, r4, r5];
  }

  /** Concatenating rule lists concatenates their failure lists. */
  lemma {:induction false} FailedMessagesAppend(code: string, a: seq<Rule>, b: seq<Rule>, engine: RegexEngine)
    ensures FailedMessages(code, a + b, engine) == FailedMessages(code, a, engine) + FailedMessages(code, b, engine)
  {
    if b == [] {
      assert a + b == a;
    } else {
      var n := |b| - 1;
      assert (a + b)[..|a + b| - 1] == a + b[..n];
      FailedMessagesAppend(code, a, b[..n], engine);
    }
  }

  /** No failure message exactly when every rule holds. */
  lemma {:induction false} FailedMessagesEmptyIffAllPass(code: string, rules: seq<Rule>, engine: RegexEngine)
    ensures FailedMessages(code, rules, engine) == [] <==>
      forall i | 0 <= i < |rules| :: CheckRule(code, rules[i], engine)
  {
    if rules != [] {
      var n := |rules| - 1;
      FailedMessagesEmptyIffAllPass(code, rules[..n], engine);
      assert forall i :: 0 <= i < n ==> rules[..n][i] == rules[i];
    }
  }

  // ----- The result -----

  /** `${n} issue${n > 1 ? 's' : ''} found` */
  function IssueSummary(n: nat): string {
    NatToString(n) + " issue" + (if n > 1 then "s" else "") + " found"
  }

  /** The singular for one issue, the plural from two on. */
  lemma {:induction false} IssueSummaryOneAndTwo()
    ensures IssueSummary(1) == "1 issue found"
    ensures IssueSummary(2) == "2 issues found"
  {
  }

  /** The count leads the message and reads back as the number of issues;
      more than one issue takes the plural. */
  lemma {:induction false} IssueSummaryForms(n: nat)
    requires n >= 1
    ensures n > 1 ==> IssueSummary(n) == NatToString(n) + " issues found"
    ensures DecimalValue(IssueSummary(n)[..|NatToString(n)|]) == n
  {
    NatToStringRoundTrip(n);
    assert IssueSummary(n)[..|NatToString(n)|] == NatToString(n);
  }

  /** What `validateCode` returns: success exactly when every rule holds,
      with the fixed message and no details; otherwise the issue count and
      the failure list. */
  function Validate(code: string, rules: seq<Rule>, engine: RegexEngine): (r: ValidationResult)
    ensures r.success <==> forall i | 0 <= i < |rules| :: CheckRule(code, rules[i], engine)
    ensures r.success ==> r.message == AllPassedMessage && r.details == None
    ensures !r.success ==>
      var failed := FailedMessages(code, rules, engine);
      failed != [] && r.details == Some(failed) && r.message == IssueSummary(|failed|)
  {
    FailedMessagesEmptyIffAllPass(code, rules, engine);
    Verdict(FailedMessages(code, rules, engine))
  }

  /** The result built from a failure list. */
  function Verdict(failed: seq<string>): ValidationResult {
    if failed == [] then ValidationResult(true, AllPassedMessage, None)
    else ValidationResult(false, IssueSummary(|failed|), Some(failed))
  }

  /** Two failing rules: the summary says so and lists both messages. */
  lemma {:induction false} TwoIssues(code: string, rules: seq<Rule>, a: string, b: string, engine: RegexEngine)
    requires FailedMessages(code, rules, engine) == [a, b]
    ensures Validate(code, rules, engine) == ValidationResult(false, "2 issues found", Some([a, b]))
  {
    IssueSummaryOneAndTwo();
  }

  /** An empty rule list always passes. */
  lemma {:induction false} NoRulesPass(code: string, engine: RegexEngine)
    ensures Validate(code, [], engine) == ValidationResult(true, AllPassedMessage, None)
  {
  }

  /** `validateCode`: every rule is checked, in order and without stopping
      at the first failure; failing rules' messages are pushed onto a list. */
  method ValidateCode(code: string, rules: seq<Rule>, engine: RegexEngine) returns (r: ValidationResult)
    ensures r == Validate(code, rules, engine)
  {
    var failedRules: seq<string> := [];
    for i := 0 to |rules|
      invariant failedRules == FailedMessages(code, rules[..i], engine)
    {
      assert rules[..i + 1][..i] == rules[..i];
      var passed := CheckRule(code, rules[i], engine);
      if !passed {
        failedRules := failedRules + [rules[i].message];
      }
    }
    assert rules[..|rules|] == rules;
    if |failedRules| == 0 {
      r := ValidationResult(true, AllPassedMessage, None);
    } else {
      r := ValidationResult(false, IssueSummary(|failedRules|), Some(failedRules));
    }
  }
}
