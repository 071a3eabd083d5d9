/** The first level, "The Leaky Vault", checked against its own starter
    code and reference solution: both are rejected, and for the same two
    rules, because the search ignores letter case. */
module LevelOne {
  import opened Text
  import opened Normalization
  import opened Validation
  import opened Levels

  /** The strings joined end to end. */
  function Concat(parts: seq<string>): string {
    if parts == [] then "" else parts[0] + Concat(parts[1..])
  }

  /** Cutting the list around one part cuts the joined text around it. */
  lemma {:induction false} ConcatSplit(parts: seq<string>, k: nat)
    requires k < |parts|
    ensures Concat(parts) == Concat(parts[..k]) + parts[k] + Concat(parts[k + 1..])
  {
    if k == 0 {
      assert parts[..0] == [];
    } else {
      var tail := parts[1..];
      ConcatSplit(tail, k - 1);
      assert parts[..k][1..] == tail[..k - 1];
      assert parts[k + 1..] == tail[k..];
      assert Concat(parts[..k]) == parts[0] + Concat(tail[..k - 1]);
    }
  }

  /** Equal once each character is lower-cased, checked position by
      position. */
  predicate SameLetters(a: string, b: string) {
    |a| == |b| && forall i :: 0 <= i < |a| ==> LowerChar(a[i]) == LowerChar(b[i])
  }

  // The pieces of the starter code and the solution that the rules look
  // for. Each fact about a literal gets a lemma of its own, so that no
  // proof has to unfold more than one literal.

  lemma {:induction false} PrivateNormal()
    ensures NormalForm("private")
  {
  }

  lemma {:induction false} PrivateUpperNormal()
    ensures NormalForm("PRIVATE")
  {
  }

  lemma {:induction false} PublicBalanceNormal()
    ensures NormalForm("public decimal Balance")
  {
  }

  lemma {:induction false} PublicBalanceLowerNormal()
    ensures NormalForm("public decimal balance")
  {
  }

  lemma {:induction false} PublicOwnerNameNormal()
    ensures NormalForm("public string OwnerName")
  {
  }

  lemma {:induction false} PublicOwnerNameLowerNormal()
    ensures NormalForm("public string ownerName")
  {
  }

  lemma {:induction false} GetterBraceNormal()
    ensures NormalForm("get {")
  {
  }

  lemma {:induction false} GetterSemicolonNormal()
    ensures NormalForm("get;")
  {
  }

  lemma {:induction false} DepositNormal()
    ensures NormalForm("Deposit")
  {
  }

  lemma {:induction false} WithdrawNormal()
    ensures NormalForm("Withdraw")
  {
  }

  // The three pieces that differ from their operand in letter case.

  lemma {:induction false} PrivateUpperSameLetters()
    ensures SameLetters("PRIVATE", "private")
  {
  }

  lemma {:induction false} PublicBalanceSameLetters()
    ensures SameLetters("public decimal Balance", "public decimal balance")
  {
  }

  lemma {:induction false} PublicOwnerNameSameLetters()
    ensures SameLetters("public string OwnerName", "public string ownerName")
  {
  }

  /** A part of the text in normal form that equals the operand up to
      letter case is found by the search. */
  lemma {:induction false} PartFound(parts: seq<string>, k: nat, piece: string, v: string)
    requires k < |parts| && parts[k] == piece
    requires piece != [] && NormalForm(piece) && SameLetters(piece, v)
    ensures Mentions(Concat(parts), v)
  {
    assert Lower(piece) == Lower(v);
    ConcatSplit(parts, k);
    PieceMentions(Concat(parts[..k]), piece, Concat(parts[k + 1..]), v);
  }

  /** The starter code and the reference solution, cut at line ends and
      around the words the rules look for. */
  const SolutionParts: seq<string> := [
    "public class BankAccount\n",
    "{\n",
    "    ",
    "private",
    " decimal _balance;\n",
    "    private string _ownerName;\n",
    "    \n",
    "    ",
    "public decimal Balance",
    " { ",
    "get {",
    " return _balance; } }\n",
    "    ",
    "public string OwnerName",
    " { get { return _ownerName; } }\n",
    "    \n",
    "    public BankAccount(string owner, decimal initial)\n",
    "    {\n",
    "        _ownerName = owner;\n",
    "        _balance = initial;\n",
    "    }\n",
    "    \n",
    "    public void ",
    "Deposit",
    "(decimal amount)\n",
    "    {\n",
    "        if (amount > 0) _balance += amount;\n",
    "    }\n",
    "    \n",
    "    public bool ",
    "Withdraw",
    "(decimal amount)\n",
    "    {\n",
    "        if (amount > 0 && amount <= _balance)\n",
    "        {\n",
    "            _balance -= amount;\n",
    "            return true;\n",
    "        }\n",
    "        return false;\n",
    "    }\n",
    "}"
  ]

  const StarterParts: seq<string> := [
    "// 🚨 DANGER! This vault is WIDE OPEN!\n",
    "// Goblins can directly modify the balance!\n",
    "public class BankAccount\n",
    "{\n",
    "    // TODO: Make these fields ",
    "PRIVATE",
    "!\n",
    "    ",
    "public decimal balance",
    ";\n",
    "    ",
    "public string ownerName",
    ";\n",
    "    \n",
    "    // TODO: Add PROPERTIES to safely access data\n",
    "    // Hint: public decimal Balance { ",
    "get;",
    " private set; }\n",
    "    \n",
    "    public BankAccount(string owner, decimal initial)\n",
    "    {\n",
    "        ownerName = owner;\n",
    "        balance = initial;\n",
    "    }\n",
    "    \n",
    "    // TODO: Add a ",
    "Deposit",
    " method\n",
    "    // TODO: Add a ",
    "Withdraw",
    " method with validation\n",
    "}"
  ]


  const Solution: string := Concat(SolutionParts)
  const Starter: string := Concat(StarterParts)

  /** The first level's records, read as rules, in order. */
  const PrivateFields := Contains("private", "🔒 You need private fields!")
  const NoPublicBalance := NotContains("public decimal balance", "⚠️ The balance field is still public! Goblins can steal it!")
  const NoPublicOwnerName := NotContains("public string ownerName", "⚠️ The ownerName is exposed! Make it private!")
  const HasGetter := ContainsAny(["get;", "get {", "get{"], "📖 Add a getter to read the balance safely!")
  const HasDeposit := ContainsAny(["Deposit", "AddFunds", "Credit"], "💰 Add a method to deposit money!")
  const HasWithdraw := ContainsAny(["Withdraw", "RemoveFunds", "Debit"], "💸 Add a method to withdraw money!")

  const Rules: seq<Rule> := [PrivateFields, NoPublicBalance, NoPublicOwnerName, HasGetter, HasDeposit, HasWithdraw]

  lemma {:induction false} FrontRecordsRead()
    ensures ToRule(Level1Rules[0]) == Some(PrivateFields)
    ensures ToRule(Level1Rules[1]) == Some(NoPublicBalance)
    ensures ToRule(Level1Rules[2]) == Some(NoPublicOwnerName)
  {
  }

  lemma {:induction false} BackRecordsRead()
    ensures ToRule(Level1Rules[3]) == Some(HasGetter)
    ensures ToRule(Level1Rules[4]) == Some(HasDeposit)
    ensures ToRule(Level1Rules[5]) == Some(HasWithdraw)
  {
  }

  /** The first level's records read, in order, as the six rules above. */
  lemma {:induction false} RulesRead()
    ensures AllLevels[0].validationRules == Level1Rules
    ensures RulesOf(Level1Rules) == Some(Rules)
  {
    FrontRecordsRead();
    BackRecordsRead();
    var rs := RulesOf(Level1Rules);
    assert rs.Some? && |rs.value| == 6;
    assert rs.value == Rules;
  }

  /** Six rules of which exactly the second and the third fail: the
      learner is told of two issues, the second rule's message first. */
  lemma {:induction false} SecondAndThirdFail(code: string, r0: Rule, r1: Rule, r2: Rule, r3: Rule, r4: Rule, r5: Rule, engine: RegexEngine)
    requires CheckRule(code, r0, engine) && !CheckRule(code, r1, engine) && !CheckRule(code, r2, engine)
    requires CheckRule(code, r3, engine) && CheckRule(code, r4, engine) && CheckRule(code, r5, engine)
    ensures Validate(code, [r0, r1, r2, r3, r4, r5], engine) ==
      ValidationResult(false, "2 issues found", Some([r1.message, r2.message]))
  {
    SecondAndThirdMessages(code, r0, r1, r2, r3, r4, r5, engine);
    TwoIssues(code, [r0, r1, r2, r3, r4, r5], r1.message, r2.message, engine);
  }

  // Unfolding steps for the literal proofs below: each opens one rule's
  // branch of `CheckRule`, so that a proof about the long texts names
  // only the operand it found.

  lemma {:induction false} PrivateFieldsPasses(code: string, engine: RegexEngine)
    requires Mentions(code, PrivateFields.value)
    ensures CheckRule(code, PrivateFields, engine)
  {
  }

  lemma {:induction false} NoPublicBalanceFails(code: string, engine: RegexEngine)
    requires Mentions(code, NoPublicBalance.value)
    ensures !CheckRule(code, NoPublicBalance, engine)
  {
  }

  lemma {:induction false} NoPublicOwnerNameFails(code: string, engine: RegexEngine)
    requires Mentions(code, NoPublicOwnerName.value)
    ensures !CheckRule(code, NoPublicOwnerName, engine)
  {
  }

  lemma {:induction false} HasGetterPasses(code: string, k: nat, engine: RegexEngine)
    requires k < |HasGetter.values| && Mentions(code, HasGetter.values[k])
    ensures CheckRule(code, HasGetter, engine)
  {
  }

  lemma {:induction false} HasDepositPasses(code: string, engine: RegexEngine)
    requires Mentions(code, HasDeposit.values[0])
    ensures CheckRule(code, HasDeposit, engine)
  {
  }

  lemma {:induction false} HasWithdrawPasses(code: string, engine: RegexEngine)
    requires Mentions(code, HasWithdraw.values[0])
    ensures CheckRule(code, HasWithdraw, engine)
  {
  }

  // ----- The reference solution -----

  lemma {:induction false} SolutionMentionsPrivate()
    ensures Mentions(Solution, PrivateFields.value)
  {
    PrivateNormal();
    PartFound(SolutionParts, 3, "private", "private");
  }

  lemma {:induction false} SolutionMentionsPublicBalance()
    ensures Mentions(Solution, NoPublicBalance.value)
  {
    PublicBalanceNormal();
    PublicBalanceSameLetters();
    PartFound(SolutionParts, 8, "public decimal Balance", "public decimal balance");
  }

  lemma {:induction false} SolutionMentionsPublicOwnerName()
    ensures Mentions(Solution, NoPublicOwnerName.value)
  {
    PublicOwnerNameNormal();
    PublicOwnerNameSameLetters();
    PartFound(SolutionParts, 13, "public string OwnerName", "public string ownerName");
  }

  lemma {:induction false} SolutionMentionsGetter()
    ensures Mentions(Solution, HasGetter.values[1])
  {
    GetterBraceNormal();
    PartFound(SolutionParts, 10, "get {", "get {");
  }

  lemma {:induction false} SolutionMentionsDeposit()
    ensures Mentions(Solution, HasDeposit.values[0])
  {
    DepositNormal();
    PartFound(SolutionParts, 23, "Deposit", "Deposit");
  }

  lemma {:induction false} SolutionMentionsWithdraw()
    ensures Mentions(Solution, HasWithdraw.values[0])
  {
    WithdrawNormal();
    PartFound(SolutionParts, 30, "Withdraw", "Withdraw");
  }

  /** The four rules the reference solution satisfies. */
  lemma {:induction false} SolutionPasses(engine: RegexEngine)
    ensures CheckRule(Solution, PrivateFields, engine) && CheckRule(Solution, HasGetter, engine)
    ensures CheckRule(Solution, HasDeposit, engine) && CheckRule(Solution, HasWithdraw, engine)
  {
    SolutionMentionsPrivate();
    PrivateFieldsPasses(Solution, engine);
    SolutionMentionsGetter();
    HasGetterPasses(Solution, 1, engine);
    SolutionMentionsDeposit();
    HasDepositPasses(Solution, engine);
    SolutionMentionsWithdraw();
    HasWithdrawPasses(Solution, engine);
  }

  /** The two rules the reference solution breaks. */
  lemma {:induction false} SolutionFails(engine: RegexEngine)
    ensures !CheckRule(Solution, NoPublicBalance, engine) && !CheckRule(Solution, NoPublicOwnerName, engine)
  {
    SolutionMentionsPublicBalance();
    NoPublicBalanceFails(Solution, engine);
    SolutionMentionsPublicOwnerName();
    NoPublicOwnerNameFails(Solution, engine);
  }

  /** The reference solution passes every rule of the first level except
      the two that forbid the public fields: `public decimal Balance` and
      `public string OwnerName`, its read-only properties, match them once
      case is ignored. */
  lemma {:induction false} SolutionRejected(engine: RegexEngine)
    ensures Validate(Solution, Rules, engine) ==
      ValidationResult(false, "2 issues found", Some([NoPublicBalance.message, NoPublicOwnerName.message]))
  {
    SolutionPasses(engine);
    SolutionFails(engine);
    SecondAndThirdFail(Solution, PrivateFields, NoPublicBalance, NoPublicOwnerName, HasGetter, HasDeposit, HasWithdraw, engine);
  }

  // ----- The starter code -----

  lemma {:induction false} StarterMentionsPrivate()
    ensures Mentions(Starter, PrivateFields.value)
  {
    PrivateUpperNormal();
    PrivateUpperSameLetters();
    PartFound(StarterParts, 5, "PRIVATE", "private");
  }

  lemma {:induction false} StarterMentionsPublicBalance()
    ensures Mentions(Starter, NoPublicBalance.value)
  {
    PublicBalanceLowerNormal();
    PartFound(StarterParts, 8, "public decimal balance", "public decimal balance");
  }

  lemma {:induction false} StarterMentionsPublicOwnerName()
    ensures Mentions(Starter, NoPublicOwnerName.value)
  {
    PublicOwnerNameLowerNormal();
    PartFound(StarterParts, 11, "public string ownerName", "public string ownerName");
  }

  lemma {:induction false} StarterMentionsGetter()
    ensures Mentions(Starter, HasGetter.values[0])
  {
    GetterSemicolonNormal();
    PartFound(StarterParts, 16, "get;", "get;");
  }

  lemma {:induction false} StarterMentionsDeposit()
    ensures Mentions(Starter, HasDeposit.values[0])
  {
    DepositNormal();
    PartFound(StarterParts, 26, "Deposit", "Deposit");
  }

  lemma {:induction false} StarterMentionsWithdraw()
    ensures Mentions(Starter, HasWithdraw.values[0])
  {
    WithdrawNormal();
    PartFound(StarterParts, 29, "Withdraw", "Withdraw");
  }

  /** The four rules the starter code satisfies. */
  lemma {:induction false} StarterPasses(engine: RegexEngine)
    ensures CheckRule(Starter, PrivateFields, engine) && CheckRule(Starter, HasGetter, engine)
    ensures CheckRule(Starter, HasDeposit, engine) && CheckRule(Starter, HasWithdraw, engine)
  {
    StarterMentionsPrivate();
    PrivateFieldsPasses(Starter, engine);
    StarterMentionsGetter();
    HasGetterPasses(Starter, 0, engine);
    StarterMentionsDeposit();
    HasDepositPasses(Starter, engine);
    StarterMentionsWithdraw();
    HasWithdrawPasses(Starter, engine);
  }

  /** The two rules the starter code breaks. */
  lemma {:induction false} StarterFails(engine: RegexEngine)
    ensures !CheckRule(Starter, NoPublicBalance, engine) && !CheckRule(Starter, NoPublicOwnerName, engine)
  {
    StarterMentionsPublicBalance();
    NoPublicBalanceFails(Starter, engine);
    StarterMentionsPublicOwnerName();
    NoPublicOwnerNameFails(Starter, engine);
  }

  /** The starter code fails the rule against a public balance field, and
      the one against a public owner name; its comments (`PRIVATE`, a hint
      with `get;`, the TODO lines naming `Deposit` and `Withdraw`) satisfy
      the other four. */
  lemma {:induction false} StarterRejected(engine: RegexEngine)
    ensures Validate(Starter, Rules, engine) ==
      ValidationResult(false, "2 issues found", Some([NoPublicBalance.message, NoPublicOwnerName.message]))
  {
    StarterPasses(engine);
    StarterFails(engine);
    SecondAndThirdFail(Starter, PrivateFields, NoPublicBalance, NoPublicOwnerName, HasGetter, HasDeposit, HasWithdraw, engine);
  }
}
