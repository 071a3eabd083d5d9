/** The level catalogue: each level's id, its rules as the data file
    writes them, and its reward; and the total reward on offer. */
module Levels {
  import opened Validation

  /** A rule operand as the data file writes it: `string | string[]`. */
  datatype RuleValue = Single(text: string) | Many(items: seq<string>)

  /** A rule record as the data file writes it: a `type` tag (here `kind`),
      an operand and a message. */
  datatype ValidationRule = ValidationRule(kind: string, value: RuleValue, message: string)

  /** The rule a record stands for when its value has the shape its kind
      casts to: a string for `contains`, `notContains` and `regex`, a list
      for `containsAll` and `containsAny`. A tag outside the five kinds, or
      a value of the other shape, has no rule; what `checkRule` does with
      such a record is `CheckRecord` below. */
  function ToRule(raw: ValidationRule): (r: Option<Rule>)
    ensures r.Some? ==> r.value.message == raw.message
    ensures r.Some? <==>
      || (raw.kind in {"contains", "notContains", "regex"} && raw.value.Single?)
      || (raw.kind in {"containsAll", "containsAny"} && raw.value.Many?)
  {
    match raw.value
    case Single(s) =>
      if raw.kind == "contains" then Some(Contains(s, raw.message))
      else if raw.kind == "notContains" then Some(NotContains(s, raw.message))
      else if raw.kind == "regex" then Some(Regex(s, raw.message))
      else None
    case Many(xs) =>
      if raw.kind == "containsAll" then Some(ContainsAll(xs, raw.message))
      else if raw.kind == "containsAny" then Some(ContainsAny(xs, raw.message))
      else None
  }

  /** `String(xs)` for a list of strings: the items joined with commas. */
  function JoinWithCommas(xs: seq<string>): string {
    if xs == [] then ""
    else if |xs| == 1 then xs[0]
    else xs[0] + "," + JoinWithCommas(xs[1..])
  }

  const Kinds: set<string> := {"contains", "notContains", "regex", "containsAll", "containsAny"}

  /** `checkRule` on a record as written, with its unchecked casts: `None`
      when the call throws. A string method called on a list (`contains`,
      `notContains`) or a list method called on a string (`containsAll`,
      `containsAny`) throws a TypeError, and only the `regex` branch
      catches; `new RegExp` turns a list into its comma-joined text. A tag
      outside the five kinds fails. */
  function CheckRecord(code: string, raw: ValidationRule, engine: RegexEngine): (r: Option<bool>)
    ensures ToRule(raw).Some? ==> r == Some(CheckRule(code, ToRule(raw).value, engine))
    ensures r.None? <==>
      || (raw.kind in {"contains", "notContains"} && raw.value.Many?)
      || (raw.kind in {"containsAll", "containsAny"} && raw.value.Single?)
    ensures raw.kind !in Kinds ==> r == Some(false)
    ensures raw.kind == "regex" && raw.value.Many? ==>
      r == Some(CheckRule(code, Regex(JoinWithCommas(raw.value.items), raw.message), engine))
  {
    match raw.value
    case Single(s) =>
      if raw.kind == "contains" then Some(Mentions(code, s))
      else if raw.kind == "notContains" then Some(!Mentions(code, s))
      else if raw.kind == "regex" then Some(CheckRule(code, Regex(s, raw.message), engine))
      else if raw.kind in {"containsAll", "containsAny"} then None
      else Some(false)
    case Many(xs) =>
      if raw.kind in {"contains", "notContains"} then None
      else if raw.kind == "regex" then Some(CheckRule(code, Regex(JoinWithCommas(xs), raw.message), engine))
      else if raw.kind == "containsAll" then Some(forall i | 0 <= i < |xs| :: Mentions(code, xs[i]))
      else if raw.kind == "containsAny" then Some(exists i | 0 <= i < |xs| :: Mentions(code, xs[i]))
      else Some(false)
  }

  /** The record that writes a rule down. */
  function FromRule(rule: Rule): ValidationRule {
    match rule
    case Contains(v, m) => ValidationRule("contains", Single(v), m)
    case NotContains(v, m) => ValidationRule("notContains", Single(v), m)
    case Regex(p, m) => ValidationRule("regex", Single(p), m)
    case ContainsAll(vs, m) => ValidationRule("containsAll", Many(vs), m)
    case ContainsAny(vs, m) => ValidationRule("containsAny", Many(vs), m)
  }

  /** Writing a rule down and reading it back gives the rule, and a record
      that reads as a rule is the one that writes it. */
  lemma {:induction false} RuleRecordRoundTrip(rule: Rule, raw: ValidationRule)
    ensures ToRule(FromRule(rule)) == Some(rule)
    ensures ToRule(raw) == Some(rule) ==> FromRule(rule) == raw
  {
  }

  /** The rules of a list of records, when every record reads as a rule. */
  function RulesOf(raws: seq<ValidationRule>): (rs: Option<seq<Rule>>)
    ensures rs.Some? <==> forall i :: 0 <= i < |raws| ==> ToRule(raws[i]).Some?
    ensures rs.Some? ==>
      && |rs.value| == |raws|
      && forall i :: 0 <= i < |raws| ==> ToRule(raws[i]) == Some(rs.value[i])
  {
    if raws == [] then Some([])
    else
      match (ToRule(raws[0]), RulesOf(raws[1..]))
      case (Some(r), Some(rest)) => Some([r] + rest)
      case _ => None
  }

  /** The failure list `validateCode` collects from records as written;
      `None` when some record throws, since the loop does not catch. */
  function RecordFailures(code: string, raws: seq<ValidationRule>, engine: RegexEngine): (r: Option<seq<string>>)
    ensures r.None? <==> exists i | 0 <= i < |raws| :: CheckRecord(code, raws[i], engine).None?
  {
    if raws == [] then Some([])
    else
      var n := |raws| - 1;
      assert forall i | 0 <= i < n :: raws[..n][i] == raws[i];
      match (RecordFailures(code, raws[..n], engine), CheckRecord(code, raws[n], engine))
      case (Some(failed), Some(passed)) => Some(failed + (if passed then [] else [raws[n].message]))
      case _ => None
  }

  /** `validateCode` on records as written: the throw of any record
      escapes, otherwise the result for the failure list. */
  function ValidateRecords(code: string, raws: seq<ValidationRule>, engine: RegexEngine): (r: Option<ValidationResult>)
    ensures r.None? <==> exists i | 0 <= i < |raws| :: CheckRecord(code, raws[i], engine).None?
  {
    match RecordFailures(code, raws, engine)
    case None => None
    case Some(failed) => Some(Verdict(failed))
  }

  /** Records that read as rules collect the failure list of those rules. */
  lemma {:induction false} RecordFailuresAgree(code: string, raws: seq<ValidationRule>, engine: RegexEngine)
    requires RulesOf(raws).Some?
    ensures RecordFailures(code, raws, engine) == Some(FailedMessages(code, RulesOf(raws).value, engine))
  {
    if raws != [] {
      var n := |raws| - 1;
      var rs := RulesOf(raws).value;
      assert forall i | 0 <= i < n :: raws[..n][i] == raws[i];
      RecordFailuresAgree(code, raws[..n], engine);
      assert RulesOf(raws[..n]).value == rs[..n];
    }
  }

  /** Records that read as rules are validated as those rules, and nothing
      throws. */
  lemma {:induction false} ValidateRecordsAgrees(code: string, raws: seq<ValidationRule>, engine: RegexEngine)
    requires RulesOf(raws).Some?
    ensures ValidateRecords(code, raws, engine) == Some(Validate(code, RulesOf(raws).value, engine))
  {
    RecordFailuresAgree(code, raws, engine);
  }

  datatype Level = Level(id: int, validationRules: seq<ValidationRule>, xpReward: int)

  /** A record whose operand has the shape its kind reads, and whose list
      operand, if any, is not empty. */
  predicate WellShaped(raw: ValidationRule) {
    match raw.value
    case Single(_) => raw.kind in {"contains", "notContains"}
    case Many(xs) => raw.kind in {"containsAll", "containsAny"} && xs != []
  }

  const Level1Rules: seq<ValidationRule> := [
    ValidationRule("contains", Single("private"), "🔒 You need private fields!"),
    ValidationRule("notContains", Single("public decimal balance"), "⚠️ The balance field is still public! Goblins can steal it!"),
    ValidationRule("notContains", Single("public string ownerName"), "⚠️ The ownerName is exposed! Make it private!"),
    ValidationRule("containsAny", Many(["get;", "get {", "get{"]), "📖 Add a getter to read the balance safely!"),
    ValidationRule("containsAny", Many(["Deposit", "AddFunds", "Credit"]), "💰 Add a method to deposit money!"),
    ValidationRule("containsAny", Many(["Withdraw", "RemoveFunds", "Debit"]), "💸 Add a method to withdraw money!")
  ]

  const Level2Rules: seq<ValidationRule> := [
    ValidationRule("contains", Single("class Player"), "🧙 Create a Player class!"),
    ValidationRule("containsAny", Many(["class Inventory", "List<", "IList<"]), "🎒 Create an Inventory class or use a List!"),
    ValidationRule("contains", Single("private"), "🔒 Use private fields for encapsulation!"),
    ValidationRule("containsAny", Many(["get;", "get {"]), "📖 Add properties to access data!"),
    ValidationRule("containsAny", Many(["Health", "HP", "HealthPoints"]), "❤️ Add a Health property!")
  ]

  /** The third rule's operand holds a line feed followed by four spaces. */
  const PenguinFlyOperand: string := "class Penguin : Bird\n    public virtual void Fly"
  const PenguinRule: ValidationRule :=
    ValidationRule("notContains", Single(PenguinFlyOperand), "🐧 Penguins should NOT have a Fly method directly!")

  const Level3Rules: seq<ValidationRule> := [
    ValidationRule("contains", Single("interface"), "📜 Create an interface (like ICanFly) for optional abilities!"),
    ValidationRule("containsAny", Many(["ICanFly", "IFlyable", "IFlying"]), "🦅 Create a flying interface!"),
    PenguinRule,
    ValidationRule("containsAny", Many(["abstract", "virtual", "override"]), "🎭 Use abstract/virtual/override for polymorphism!"),
    ValidationRule("contains", Single("class Bird"), "🐦 Keep the Bird base class!")
  ]

  const Level4Rules: seq<ValidationRule> := [
    ValidationRule("contains", Single("abstract"), "✨ Use abstract for the base Shape!"),
    ValidationRule("contains", Single("override"), "🔄 Override methods in derived classes!"),
    ValidationRule("containsAll", Many(["Circle", "Rectangle"]), "⬜ Create both Circle and Rectangle classes!"),
    ValidationRule("containsAny", Many(["Draw()", "Draw ("]), "🎨 Implement the Draw method!"),
    ValidationRule("containsAny", Many(["CalculateArea", "GetArea", "Area()"]), "📐 Implement area calculation!")
  ]

  const Level5Rules: seq<ValidationRule> := [
    ValidationRule("contains", Single("interface IPayable"), "📜 Define the IPayable interface!"),
    ValidationRule("containsAny", Many(["ProcessPayment", "Pay(", "MakePayment"]), "💳 Add a payment processing method!"),
    ValidationRule("contains", Single(": IPayable"), "✅ Implement IPayable in your payment classes!"),
    ValidationRule("containsAll", Many(["CreditCardPayment", "CryptoPayment"]), "💰 Create both payment types!"),
    ValidationRule("containsAny", Many(["IPayable payment", "IPayable p"]), "🔗 Use IPayable as a parameter type for polymorphism!")
  ]

  const Level6Rules: seq<ValidationRule> := [
    ValidationRule("contains", Single("class Order"), "📦 Create the Order class!"),
    ValidationRule("contains", Single("record"), "📋 Use a record for the functional approach!"),
    ValidationRule("containsAny", Many([".Where(", ".Filter("]), "🔍 Use LINQ Where for filtering!"),
    ValidationRule("containsAny", Many([".Sum(", "Aggregate("]), "➕ Use LINQ Sum for totaling!"),
    ValidationRule("contains", Single("IsCompleted"), "✅ Track order completion status!")
  ]

  const Level7Rules: seq<ValidationRule> := [
    ValidationRule("contains", Single("record Product"), "📦 Create a Product record!"),
    ValidationRule("contains", Single("interface IDiscountable"), "💸 Create the IDiscountable interface!"),
    ValidationRule("contains", Single(": IDiscountable"), "✅ Implement IDiscountable!"),
    ValidationRule("contains", Single("class ShoppingCart"), "🛒 Create the ShoppingCart class!"),
    ValidationRule("containsAny", Many(["AddItem", "Add("]), "➕ Add method to add items to cart!"),
    ValidationRule("containsAny", Many(["CalculateTotal", "GetTotal", "Total()"]), "💰 Add method to calculate total!"),
    ValidationRule("contains", Single("private"), "🔒 Use encapsulation!"),
    ValidationRule("containsAny", Many(["record CompletedOrder", "record Order", "class Order"]), "📋 Create an Order type for completed purchases!")
  ]

  /** The `levels` array, in order. */
  const AllLevels: seq<Level> := [
    Level(1, Level1Rules, 100),
    Level(2, Level2Rules, 150),
    Level(3, Level3Rules, 175),
    Level(4, Level4Rules, 150),
    Level(5, Level5Rules, 175),
    Level(6, Level6Rules, 200),
    Level(7, Level7Rules, 300)
  ]

  /** `levels.reduce((sum, level) => sum + level.xpReward, 0)`: a left fold. */
  function SumRewards(ls: seq<Level>): int {
    if ls == [] then 0 else SumRewards(ls[..|ls| - 1]) + ls[|ls| - 1].xpReward
  }

  /** `getTotalXP` */
  function GetTotalXP(): int {
    SumRewards(AllLevels)
  }

  lemma {:induction false} SumRewardsStep(ls: seq<Level>, k: nat)
    requires k < |ls|
    ensures SumRewards(ls[..k + 1]) == SumRewards(ls[..k]) + ls[k].xpReward
  {
    assert ls[..k + 1][..k] == ls[..k];
  }

  /** The seven rewards add up to 1250. */
  lemma {:induction false} TotalXP()
    ensures GetTotalXP() == 100 + 150 + 175 + 150 + 175 + 200 + 300 == 1250
  {
    var ls := AllLevels;
    SumRewardsStep(ls, 0);
    SumRewardsStep(ls, 1);
    SumRewardsStep(ls, 2);
    SumRewardsStep(ls, 3);
    SumRewardsStep(ls, 4);
    SumRewardsStep(ls, 5);
    SumRewardsStep(ls, 6);
    assert ls[..7] == ls;
  }

  /** Level ids run 1, 2, ... in array order, so the level at position `i`
      has id `i + 1`. */
  lemma {:induction false} LevelIdsFollowPositions()
    ensures |AllLevels| == 7
    ensures forall i :: 0 <= i < |AllLevels| ==> AllLevels[i].id == i + 1
  {
  }

  lemma {:induction false} RewardsPositive()
    ensures forall i :: 0 <= i < |AllLevels| ==> AllLevels[i].xpReward > 0
  {
  }

  /** A well-shaped record reads as a substring rule; a list rule's list is
      not empty. */
  lemma {:induction false} WellShapedReadsAsSubstringRule(raw: ValidationRule)
    requires WellShaped(raw)
    ensures ToRule(raw).Some? && !ToRule(raw).value.Regex?
    ensures ToRule(raw).value.ContainsAll? || ToRule(raw).value.ContainsAny? ==> ToRule(raw).value.values != []
  {
  }

  /** Every rule of every level has the shape its kind reads, no level uses
      a pattern rule, and so each level's records read as rules. */
  lemma {:induction false} CatalogueRulesWellShaped()
    ensures forall i, j :: 0 <= i < |AllLevels| && 0 <= j < |AllLevels[i].validationRules| ==>
      WellShaped(AllLevels[i].validationRules[j])
    ensures forall i :: 0 <= i < |AllLevels| ==> RulesOf(AllLevels[i].validationRules).Some?
  {
    forall i, j | 0 <= i < |AllLevels| && 0 <= j < |AllLevels[i].validationRules|
      ensures WellShaped(AllLevels[i].validationRules[j])
    {
      assert AllLevels[i].validationRules in [Level1Rules, Level2Rules, Level3Rules, Level4Rules, Level5Rules, Level6Rules, Level7Rules];
    }
    forall i, j | 0 <= i < |AllLevels| && 0 <= j < |AllLevels[i].validationRules|
      ensures ToRule(AllLevels[i].validationRules[j]).Some?
    {
      WellShapedReadsAsSubstringRule(AllLevels[i].validationRules[j]);
    }
  }

  /** No record of the catalogue makes `checkRule` throw: each one is
      checked as the rule it reads as. */
  lemma {:induction false} CatalogueChecksNeverThrow(code: string, engine: RegexEngine)
    ensures forall i, j :: 0 <= i < |AllLevels| && 0 <= j < |AllLevels[i].validationRules| ==>
      && ToRule(AllLevels[i].validationRules[j]).Some?
      && CheckRecord(code, AllLevels[i].validationRules[j], engine)
         == Some(CheckRule(code, ToRule(AllLevels[i].validationRules[j]).value, engine))
  {
    CatalogueRulesWellShaped();
    forall i, j | 0 <= i < |AllLevels| && 0 <= j < |AllLevels[i].validationRules|
      ensures ToRule(AllLevels[i].validationRules[j]).Some?
    {
      WellShapedReadsAsSubstringRule(AllLevels[i].validationRules[j]);
    }
  }

  /** `validateCode` never throws on a level of the catalogue: each level
      is validated as the rules its records read as. */
  lemma {:induction false} CatalogueValidatesWithoutThrowing(code: string, engine: RegexEngine)
    ensures forall i :: 0 <= i < |AllLevels| ==>
      && RulesOf(AllLevels[i].validationRules).Some?
      && ValidateRecords(code, AllLevels[i].validationRules, engine)
         == Some(Validate(code, RulesOf(AllLevels[i].validationRules).value, engine))
  {
    CatalogueRulesWellShaped();
    forall i | 0 <= i < |AllLevels|
      ensures ValidateRecords(code, AllLevels[i].validationRules, engine)
        == Some(Validate(code, RulesOf(AllLevels[i].validationRules).value, engine))
    {
      ValidateRecordsAgrees(code, AllLevels[i].validationRules, engine);
    }
  }

  /** The penguin operand holds a line feed at position 20, so the search
      never finds it. */
  lemma {:induction false} PenguinOperandNeverFound(code: string)
    ensures !Mentions(code, PenguinFlyOperand)
  {
    assert PenguinFlyOperand[20] == '\n';
    UnmatchableOperand(code, PenguinFlyOperand, 20);
  }

  /** An unfolding step for the penguin proof: the `notContains` branch. */
  lemma {:induction false} NotContainsPassesWhenNotFound(code: string, v: string, m: string, engine: RegexEngine)
    requires !Mentions(code, v)
    ensures CheckRule(code, NotContains(v, m), engine)
  {
  }

  /** Where the penguin rule sits, and the rule it reads as. */
  lemma {:induction false} PenguinRuleRead()
    ensures AllLevels[2].validationRules[2] == PenguinRule
    ensures ToRule(PenguinRule) == Some(NotContains(PenguinFlyOperand, PenguinRule.message))
  {
  }

  /** The third level's rule against a flying penguin can never fail: its
      operand holds a line feed, and the normalised text the search runs
      over has none. */
  lemma {:induction false} PenguinRuleAlwaysPasses(code: string, engine: RegexEngine)
    ensures CheckRule(code, ToRule(AllLevels[2].validationRules[2]).value, engine)
  {
    PenguinRuleRead();
    PenguinOperandNeverFound(code);
    NotContainsPassesWhenNotFound(code, PenguinFlyOperand, PenguinRule.message, engine);
  }
}
