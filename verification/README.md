# c-quest core, modelled in Dafny

c-quest is a browser game that teaches object-oriented C#. Each level
gives the learner some starter code and a list of validation rules.
The learner's code is checked by plain substring tests on a normalised
copy of the text, and by optional regular expressions. Clearing a level
adds its XP reward to a progress record kept by a React hook.

This project models three parts of the game:

- **The rule checker** (`src/lib/validation.ts`):
  - `checkRule` collapses every run of white space to one space, trims the result and lower-cases it;
  - it then looks for each operand in that text, lower-cased the same way;
  - `validateCode` runs every rule in order, collects the messages of the failing ones and builds the verdict (`"N issue(s) found"`).
- **The progress store** (`src/hooks/useGameProgress.ts`): completing a level, unlocking an achievement, moving the current level, resetting, and the two lookups.
- **The level catalogue** (`src/data/levels.ts`):
  - every level's id, rules and reward, and `getTotalXP`;
  - the first level's starter code and reference solution, checked against that level's rules.

The files:

- `text.dfy`: the white-space class of JavaScript regular expressions, ASCII lower-casing, `includes`, and the decimal text of a count.
- `normalize.dfy`: the normalisation (`replace(/\s+/g, ' ').trim()`) and the shape of its output.
- `validation.dfy`:
  - the rule kinds and `CheckRule`;
  - the failure list, the verdict and the `validateCode` loop;
  - what the checker guarantees about case, spacing and rule order.
- `levels.dfy`: the rule records as the data file writes them (a `type` tag and a `string | string[]` value), how they read as rules, what `checkRule` and `validateCode` do with records as written (throws included), the seven levels, and `getTotalXP`.
- `level_one.dfy`: the first level's starter code and reference solution, and what the checker says about each.
- `progress.dfy`: the progress record, the pure updates the hook applies, and a `GameProgressStore` class whose methods replace its `progress` field with those updates.
- `campaign.dfy`: playing every level once, in order, from a fresh record.

Two facts proved here are worth knowing about the game itself:

- **The first level rejects its own reference solution.** The solution declares the read-only properties `public decimal Balance` and `public string OwnerName`. Once letter case is ignored, these match the rules that forbid the public fields `public decimal balance` and `public string ownerName`. So the solution gets "2 issues found", and so does the untouched starter code (`LevelOne.SolutionRejected`, `LevelOne.StarterRejected`).
- **The third level's penguin rule can never fail.** The operand of that `notContains` rule holds a line feed. The normalised text it is searched in has none (`Levels.PenguinRuleAlwaysPasses`).

## Model

| member | source | states |
|---|---|---|
| Text.LowerChar | src/lib/validation.ts:32 | A capital ASCII letter becomes the small letter at the same place in the alphabet; every other character is left alone; no upper-case ASCII letter is produced, and white space stays white space |
| Text.LowerCharSameLetter | src/lib/validation.ts:32 | Two characters lower-case alike exactly when they are equal or one is the capital of the other |
| Text.IsSpace | src/lib/validation.ts:28 | The characters `\s` matches: the ASCII white space, the no-break space, the line and paragraph separators, the byte-order mark and the Unicode space separators (a predicate; its consequences are the normalisation lemmas) |
| Text.Lower | src/lib/validation.ts:32 | `toLowerCase` keeps the length and lower-cases position by position |
| Text.LowerIdempotent | src/lib/validation.ts:32 | Lower-casing twice is lower-casing once |
| Text.LowerAppend | src/lib/validation.ts:32 | Lower-casing distributes over concatenation |
| Text.LowerSlice | src/lib/validation.ts:32 | Lower-casing commutes with taking a slice |
| Text.Includes | src/lib/validation.ts:32 | `String.prototype.includes`; `Text.IncludesOccursAt` characterises it by an occurrence at some offset |
| Text.IncludesOccursAt | src/lib/validation.ts:32 | `includes` holds exactly when the needle occurs at some offset (both directions) |
| Text.IncludesAt | src/lib/validation.ts:32 | An occurrence at a given offset makes `includes` true |
| Text.IncludesLower | src/lib/validation.ts:32 | An occurrence survives lower-casing both strings |
| Text.DigitChar | src/lib/validation.ts:22 | A digit value below ten gives a decimal digit character |
| Text.NatToString | src/lib/validation.ts:22 | The count in the message is at least one digit, all digits, with no leading zero |
| Text.NatToStringRoundTrip | src/lib/validation.ts:22 | Reading the count's decimal text back gives the count |
| Normalization.Normalize | src/lib/validation.ts:28 | `replace(/\s+/g, ' ').trim()`, as collapse then trim both ends; `Normalization.NormalizeShape` and `Normalization.NormalizeKeepsNonSpace` state what it yields |
| Normalization.Collapse | src/lib/validation.ts:28 | `replace(/\s+/g, ' ')`: every maximal white-space run becomes one plain space; `Normalization.CollapseFromShape` and `Normalization.CollapseFromNonSpace` state its output |
| Normalization.TrimStart | src/lib/validation.ts:28 | The left half of `trim`; specified by `Normalization.TrimStartSpec` |
| Normalization.TrimEnd | src/lib/validation.ts:28 | The right half of `trim`; specified by `Normalization.TrimEndSpec` |
| Normalization.CollapseFrom | src/lib/validation.ts:28 | Collapsing white-space runs never lengthens the text |
| Normalization.TrimStartSpec | src/lib/validation.ts:28 | `trim`'s left half removes a prefix made only of white space and leaves text that is empty or starts with a non-space |
| Normalization.TrimEndSpec | src/lib/validation.ts:28 | `trim`'s right half removes a suffix made only of white space and leaves text that is empty or ends with a non-space |
| Normalization.CollapseFromShape | src/lib/validation.ts:28 | After collapsing, the only white space is the plain space, no two are adjacent, and inside a run no space leads |
| Normalization.NormalizeShape | src/lib/validation.ts:28 | Normalised code is in normal form: only plain spaces, never two adjacent, none at either end |
| Normalization.TrimStartKeepsShape | src/lib/validation.ts:28 | Trimming the start keeps "plain single spaces" |
| Normalization.TrimEndKeepsShape | src/lib/validation.ts:28 | Trimming the end of text that already starts with a non-space yields normal form |
| Normalization.SliceKeepsShape | src/lib/validation.ts:28 | Any slice of text with plain single spaces has plain single spaces |
| Normalization.NonSpace | src/lib/validation.ts:28 | The non-space characters of a text hold no white space |
| Normalization.NonSpaceAppend | src/lib/validation.ts:28 | The non-space characters of a concatenation are those of each part, in order |
| Normalization.NonSpaceAllSpace | src/lib/validation.ts:28 | Text made only of white space has no non-space characters |
| Normalization.NonSpaceEmpty | src/lib/validation.ts:28 | Text with no non-space characters is made only of white space |
| Normalization.CollapseFromNonSpace | src/lib/validation.ts:28 | Collapsing white-space runs keeps every non-space character, in order |
| Normalization.TrimStartKeepsNonSpace | src/lib/validation.ts:28 | Trimming the start keeps every non-space character |
| Normalization.TrimEndKeepsNonSpace | src/lib/validation.ts:28 | Trimming the end keeps every non-space character |
| Normalization.NormalizeKeepsNonSpace | src/lib/validation.ts:28 | Normalisation changes nothing but white space: the non-space characters are those of the code |
| Normalization.BlankCodeNormalizesToEmpty | src/lib/validation.ts:28 | Code made only of white space normalises to the empty string |
| Normalization.CollapseFromAppend | src/lib/validation.ts:28 | Collapsing a concatenation collapses each part, the second starting in the run state the first leaves |
| Normalization.WhitespaceInvariance | src/lib/validation.ts:28 | One white-space character normalises like two, and like any other white-space character |
| Normalization.CollapseFromLower | src/lib/validation.ts:28-32 | Collapsing commutes with lower-casing |
| Normalization.TrimStartLower | src/lib/validation.ts:28-32 | Trimming the start commutes with lower-casing |
| Normalization.TrimEndLower | src/lib/validation.ts:28-32 | Trimming the end commutes with lower-casing |
| Normalization.NormalizeLower | src/lib/validation.ts:28-32 | Normalising then lower-casing is lower-casing then normalising |
| Normalization.CollapseFromNormal | src/lib/validation.ts:28 | Collapsing text that already has plain single spaces and no space at the ends changes nothing |
| Normalization.TrimStartBeforeWord | src/lib/validation.ts:28 | Trimming the start stops at the first non-space character |
| Normalization.TrimEndAfterWord | src/lib/validation.ts:28 | Trimming the end stops at the last non-space character |
| Normalization.CollapseAroundPiece | src/lib/validation.ts:28 | A piece in normal form is passed through unchanged when the code around it is collapsed |
| Normalization.TrimAroundPiece | src/lib/validation.ts:28 | A piece in normal form survives trimming |
| Normalization.NormalPieceSurvives | src/lib/validation.ts:28 | A piece in normal form inside the code is still found in the normalised code |
| Validation.SearchText | src/lib/validation.ts:28-32 | The normalised, lower-cased code every substring rule searches |
| Validation.Mentions | src/lib/validation.ts:31-32 | An operand is found when its lower-cased form occurs in the search text |
| Validation.CheckRule | src/lib/validation.ts:27-58 | `checkRule` on each of the five kinds: `contains` and `notContains` search the normalised text, `regex` fails on a syntax error and otherwise tests the raw code, `containsAll` needs every operand and `containsAny` one; its properties are the `Validation` lemmas below |
| Validation.NotContainsNegatesContains | src/lib/validation.ts:31-35 | For one operand, `notContains` holds exactly when `contains` does not |
| Validation.ListRuleEdgeCases | src/lib/validation.ts:31-53 | `containsAll` of no operands holds and `containsAny` of none fails. A one-operand list rule is `contains`. The empty operand is found in any code |
| Validation.RegexSyntaxErrorFails | src/lib/validation.ts:37-43 | A pattern that does not compile makes its rule fail |
| Validation.NoLineFeedAroundSpace | src/lib/validation.ts:37-40 | The sample engine finds no line feed in text that has none |
| Validation.RegexSeesRawText | src/lib/validation.ts:28-40 | A pattern is tested on the raw code: two codes that normalise alike can get different outcomes from the same `\n` rule |
| Validation.SameOperandsSameMentions | src/lib/validation.ts:45-53 | Same search text and operands equal up to case: each operand is found in both codes or in neither |
| Validation.ListRulesSameOutcome | src/lib/validation.ts:45-53 | The list rules give the same outcome for codes with the same search text and operands equal up to case |
| Validation.SameSearchTextSameOutcome | src/lib/validation.ts:27-53 | Any substring rule (`contains`, `notContains`, `containsAll`, `containsAny`) gives the same outcome for codes with the same search text and rules of the same kind whose operands are equal up to case; pattern rules are not covered, since they see the raw code (`Validation.RegexSeesRawText`) |
| Validation.SearchTextUpToCase | src/lib/validation.ts:28-32 | Codes equal up to letter case have the same search text |
| Validation.SubstringRulesIgnoreCase | src/lib/validation.ts:27-58 | Codes equal up to letter case pass the same substring rules, operands compared up to case |
| Validation.SubstringRulesIgnoreSpacing | src/lib/validation.ts:28-53 | A substring rule cannot tell one white-space character from two, or from any other |
| Validation.UnmatchableOperand | src/lib/validation.ts:28-35 | An operand holding a white-space character other than a lone plain space is found in no code |
| Validation.BlankCodeMentionsNothing | src/lib/validation.ts:28-32 | In blank code only the empty operand is found |
| Validation.PieceMentions | src/lib/validation.ts:28-32 | A piece of the code in normal form that equals the operand up to case is found |
| Validation.FailedMessages | src/lib/validation.ts:4-11 | The messages pushed by the loop: rule order, one per failing rule; `Validation.FailedMessagesAreFailingRules` states it |
| Validation.FailingPositions | src/lib/validation.ts:6-11 | The indices of the failing rules, the reference the failure list is compared with |
| Validation.FailedMessagesAtPositions | src/lib/validation.ts:4-11 | The failure list's j-th message belongs to the rule at the j-th failing position |
| Validation.FailingPositionsAscending | src/lib/validation.ts:6-11 | Failing positions are in range and strictly ascending |
| Validation.FailingPositionsExact | src/lib/validation.ts:6-11 | A position is listed exactly when its rule fails |
| Validation.FailedMessagesAreFailingRules | src/lib/validation.ts:4-11 | The failure list holds one message per failing rule, in rule order, with duplicates kept |
| Validation.FailedMessagesSnoc | src/lib/validation.ts:6-11 | One more rule appends its message exactly when it fails |
| Validation.ThreeRulesMessages | src/lib/validation.ts:6-11 | For three rules, the list holds the failing ones' messages, in order |
| Validation.SecondAndThirdMessages | src/lib/validation.ts:6-11 | When of six rules only the second and third fail, the list is their two messages |
| Validation.FailedMessagesAppend | src/lib/validation.ts:6-11 | The failure list of two rule lists joined is the two failure lists joined |
| Validation.FailedMessagesEmptyIffAllPass | src/lib/validation.ts:6-13 | The failure list is empty exactly when every rule holds |
| Validation.IssueSummary | src/lib/validation.ts:22 | The verdict text `N issue(s) found`; `Validation.IssueSummaryOneAndTwo` and `Validation.IssueSummaryForms` state its forms |
| Validation.IssueSummaryOneAndTwo | src/lib/validation.ts:22 | One failure reads "1 issue found" and two read "2 issues found" |
| Validation.IssueSummaryForms | src/lib/validation.ts:22 | From two on the message is plural, and its leading digits read back as the number of failures |
| Validation.Validate | src/lib/validation.ts:3-25 | Success exactly when every rule holds, with "All checks passed!" and no details. Otherwise the failure list is non-empty, is the details, and its length is counted in the message |
| Validation.Verdict | src/lib/validation.ts:13-24 | The result for a failure list: success with "All checks passed!" when it is empty, the issue summary and the list otherwise |
| Validation.TwoIssues | src/lib/validation.ts:13-24 | Two failures give "2 issues found" with both messages as details |
| Validation.NoRulesPass | src/lib/validation.ts:13-18 | An empty rule list passes |
| Validation.ValidateCode | src/lib/validation.ts:3-25 | The loop collects the failure list (invariant: the messages of the rules seen so far) and returns the verdict `Validate` specifies |
| Levels.ToRule | src/types/game.ts:17-21 | A record reads as a rule exactly when its tag is one of the five kinds and its value has the shape that kind casts to. The message is kept |
| Levels.JoinWithCommas | src/lib/validation.ts:39 | The text `new RegExp` makes of a list pattern: the items joined with commas |
| Levels.CheckRecord | src/lib/validation.ts:27-58 | `checkRule` on a record as written: a record that reads as a rule is checked as that rule; it throws exactly for a list under `contains`/`notContains` or a string under `containsAll`/`containsAny`; an unknown tag fails; a list under `regex` is tested as its comma-joined text |
| Levels.FromRule | src/types/game.ts:17-21 | The record that writes a rule down; `Levels.RuleRecordRoundTrip` makes it the inverse of `Levels.ToRule` |
| Levels.RuleRecordRoundTrip | src/types/game.ts:17-21 | Writing a rule as a record and reading it back gives the rule, and a record that reads as a rule is the one that writes it |
| Levels.RulesOf | src/data/levels.ts:64-71 | A list of records reads as rules exactly when each record does, position by position |
| Levels.RecordFailures | src/lib/validation.ts:4-11 | The loop over records as written throws exactly when some record throws |
| Levels.ValidateRecords | src/lib/validation.ts:3-25 | `validateCode` on records as written throws exactly when some record makes `checkRule` throw |
| Levels.RecordFailuresAgree | src/lib/validation.ts:4-11 | Records that read as rules collect the failure list of those rules |
| Levels.ValidateRecordsAgrees | src/lib/validation.ts:3-25 | Records that read as rules are validated exactly as those rules, without a throw |
| Levels.SumRewards | src/data/levels.ts:683-685 | The `reduce` that adds up the rewards; `Levels.SumRewardsStep` states its step |
| Levels.GetTotalXP | src/data/levels.ts:683-685 | `getTotalXP` over the catalogue; `Levels.TotalXP` gives its value |
| Levels.SumRewardsStep | src/data/levels.ts:683-685 | The fold adds each level's reward to the total of the levels before it |
| Levels.TotalXP | src/data/levels.ts:683-685 | `getTotalXP` sums the seven rewards 100, 150, 175, 150, 175, 200 and 300 to 1250 |
| Levels.LevelIdsFollowPositions | src/data/levels.ts:3-680 | There are seven levels, and the level at position i has id i + 1 |
| Levels.RewardsPositive | src/data/levels.ts:3-680 | Every level's reward is positive (the seven `xpReward` fields) |
| Levels.WellShapedReadsAsSubstringRule | src/lib/validation.ts:30-53 | A well-shaped record reads as a substring rule, and a list rule's list is not empty |
| Levels.CatalogueRulesWellShaped | src/data/levels.ts:3-680 | Every record of every level is well shaped, so no level uses a pattern rule and every level's records read as rules |
| Levels.CatalogueChecksNeverThrow | src/data/levels.ts:3-680 | No record of the catalogue makes `checkRule` throw: each is checked as the rule it reads as |
| Levels.CatalogueValidatesWithoutThrowing | src/data/levels.ts:3-680 | `validateCode` never throws on a level of the catalogue and validates it as the rules its records read as |
| Levels.PenguinOperandNeverFound | src/data/levels.ts:265 | The penguin operand holds a line feed, so it is found in no code |
| Levels.NotContainsPassesWhenNotFound | src/lib/validation.ts:34-35 | An unfolding step for the penguin proof: `notContains` passes when its operand is not found |
| Levels.PenguinRuleRead | src/data/levels.ts:262-268 | The penguin rule is the third level's third record and reads as a `notContains` rule |
| Levels.PenguinRuleAlwaysPasses | src/data/levels.ts:265 | The third level's penguin rule passes for every code |
| LevelOne.ConcatSplit | src/data/levels.ts:15-63 | Cutting the list of parts at one part cuts the joined text around it |
| LevelOne.PartFound | src/data/levels.ts:15-63 | A part in normal form that reads as the operand up to case is found in the joined text |
| LevelOne.FrontRecordsRead | src/data/levels.ts:65-67 | The first three records of level 1 read as `contains "private"` and the two `notContains` rules against public fields |
| LevelOne.BackRecordsRead | src/data/levels.ts:68-70 | The last three records of level 1 read as the getter, deposit and withdraw `containsAny` rules |
| LevelOne.RulesRead | src/data/levels.ts:64-71 | Level 1's records read as exactly these six rules |
| LevelOne.SecondAndThirdFail | src/lib/validation.ts:3-25 | Six rules of which only the second and third fail give "2 issues found" with those two messages |
| LevelOne.PrivateFieldsPasses | src/data/levels.ts:65 | An unfolding step for the literal proofs: code that mentions `private` passes the first rule |
| LevelOne.NoPublicBalanceFails | src/data/levels.ts:66 | An unfolding step for the literal proofs: code that mentions the public balance declaration, up to case, fails the second rule |
| LevelOne.NoPublicOwnerNameFails | src/data/levels.ts:67 | An unfolding step for the literal proofs: code that mentions the public owner-name declaration, up to case, fails the third rule |
| LevelOne.HasGetterPasses | src/data/levels.ts:68 | An unfolding step for the literal proofs: code that mentions any getter form passes the fourth rule |
| LevelOne.HasDepositPasses | src/data/levels.ts:69 | An unfolding step for the literal proofs: code that mentions `Deposit` passes the fifth rule |
| LevelOne.HasWithdrawPasses | src/data/levels.ts:70 | An unfolding step for the literal proofs: code that mentions `Withdraw` passes the sixth rule |
| LevelOne.SolutionMentionsPrivate | src/data/levels.ts:35-63 | The solution mentions `private` |
| LevelOne.SolutionMentionsPublicBalance | src/data/levels.ts:35-63 | The solution's `public decimal Balance` matches the operand `public decimal balance` |
| LevelOne.SolutionMentionsPublicOwnerName | src/data/levels.ts:35-63 | The solution's `public string OwnerName` matches the operand `public string ownerName` |
| LevelOne.SolutionMentionsGetter | src/data/levels.ts:35-63 | The solution mentions `get {` |
| LevelOne.SolutionMentionsDeposit | src/data/levels.ts:35-63 | The solution mentions `Deposit` |
| LevelOne.SolutionMentionsWithdraw | src/data/levels.ts:35-63 | The solution mentions `Withdraw` |
| LevelOne.SolutionPasses | src/data/levels.ts:35-70 | The solution passes the private, getter, deposit and withdraw rules |
| LevelOne.SolutionFails | src/data/levels.ts:35-70 | The solution fails both rules against public fields |
| LevelOne.SolutionRejected | src/data/levels.ts:35-70 | The reference solution is rejected with "2 issues found" and the two public-field messages |
| LevelOne.StarterMentionsPrivate | src/data/levels.ts:15-34 | The starter's comment `PRIVATE` matches the operand `private` |
| LevelOne.StarterMentionsPublicBalance | src/data/levels.ts:15-34 | The starter mentions `public decimal balance` |
| LevelOne.StarterMentionsPublicOwnerName | src/data/levels.ts:15-34 | The starter mentions `public string ownerName` |
| LevelOne.StarterMentionsGetter | src/data/levels.ts:15-34 | The starter's hint mentions `get;` |
| LevelOne.StarterMentionsDeposit | src/data/levels.ts:15-34 | The starter's TODO mentions `Deposit` |
| LevelOne.StarterMentionsWithdraw | src/data/levels.ts:15-34 | The starter's TODO mentions `Withdraw` |
| LevelOne.StarterPasses | src/data/levels.ts:15-34 | The starter passes the private, getter, deposit and withdraw rules |
| LevelOne.StarterFails | src/data/levels.ts:15-34 | The starter fails both rules against public fields |
| LevelOne.StarterRejected | src/data/levels.ts:15-34 | The starter code is rejected with "2 issues found" and the two public-field messages |
| Progress.DefaultProgress | src/hooks/useGameProgress.ts:6-12 | The starting record: level 1, nothing completed, no XP, no achievements, the given time; `Progress.DefaultUnlocksOnlyFirstLevel` states what it unlocks |
| Progress.LevelCompleted | src/hooks/useGameProgress.ts:84-86 | A level is completed when its id is in the completed list |
| Progress.LevelUnlocked | src/hooks/useGameProgress.ts:80-82 | Level 1 is always unlocked, any other once the level before it is completed |
| Progress.CompleteLevelUpdate | src/hooks/useGameProgress.ts:39-53 | Afterwards the level is completed. An already completed level leaves the record unchanged. A new level is appended, its reward added, the current level moved to at least the next one and the time stamped. Achievements are untouched, the current level never drops, and no completion is lost |
| Progress.UnlockAchievementUpdate | src/hooks/useGameProgress.ts:55-65 | Afterwards the achievement is held. One already held changes nothing. A new one is appended and nothing else changes, not even the timestamp |
| Progress.SetCurrentLevelUpdate | src/hooks/useGameProgress.ts:67-73 | Sets the current level, any level, and the timestamp, and nothing else |
| Progress.CompleteLevelIdempotent | src/hooks/useGameProgress.ts:41-43 | Completing the same level again, with any reward, changes nothing |
| Progress.CompleteLevelKeepsNoDuplicates | src/hooks/useGameProgress.ts:41-47 | The completed list stays free of duplicates |
| Progress.CompleteLevelXPGrows | src/hooks/useGameProgress.ts:48 | With a non-negative reward the XP total never drops |
| Progress.CompleteLevelUnlocksNext | src/hooks/useGameProgress.ts:39-53 | Completing a level unlocks the next one, and every unlocked level stays unlocked |
| Progress.UnlockAchievementIdempotent | src/hooks/useGameProgress.ts:57-59 | Unlocking the same achievement again changes nothing |
| Progress.UnlockAchievementKeepsNoDuplicates | src/hooks/useGameProgress.ts:55-65 | The achievement list stays free of duplicates |
| Progress.SetCurrentLevelCanLower | src/hooks/useGameProgress.ts:67-73 | `setCurrentLevel` can move the current level back below levels already reached, leaving completions alone |
| Progress.DefaultUnlocksOnlyFirstLevel | src/hooks/useGameProgress.ts:6-12 | The starting record completes nothing and unlocks level 1 only |
| Progress.Replay | src/hooks/useGameProgress.ts:39-53 | The record after applying a history of completions in order; `Progress.ReplayFromDefault` states what it holds |
| Progress.LevelIds | src/hooks/useGameProgress.ts:39-53 | The ids of a completion history, position by position |
| Progress.Dedup | src/hooks/useGameProgress.ts:41-47 | A list with every repeat after the first occurrence dropped |
| Progress.DedupSpec | src/hooks/useGameProgress.ts:41-47 | Dropping repeats keeps exactly the same elements and leaves no duplicate |
| Progress.ReplayFromDefault | src/hooks/useGameProgress.ts:39-53 | From the starting record, the completed list is the history's level ids with repeats dropped, in order of first completion; a level is completed exactly when the history names it; the XP total is the sum of the first completions' rewards; no achievement is held |
| Progress.GameProgressStore.constructor | src/hooks/useGameProgress.ts:6-15 | The store starts from the default record stamped with the load time |
| Progress.GameProgressStore.CompleteLevel | src/hooks/useGameProgress.ts:39-53 | The new record is the completion update of the old one, and the lists stay duplicate-free |
| Progress.GameProgressStore.UnlockAchievement | src/hooks/useGameProgress.ts:55-65 | The new record is the unlock update of the old one, and the lists stay duplicate-free |
| Progress.GameProgressStore.SetCurrentLevel | src/hooks/useGameProgress.ts:67-73 | The new record is the set-level update of the old one |
| Progress.GameProgressStore.ResetProgress | src/hooks/useGameProgress.ts:75-78 | The record goes back to the default built at load time: level 1, nothing completed, no XP, no achievements |
| Progress.GameProgressStore.IsLevelUnlocked | src/hooks/useGameProgress.ts:80-82 | Unlocked exactly when it is level 1 or the level before it is completed |
| Progress.GameProgressStore.IsLevelCompleted | src/hooks/useGameProgress.ts:84-86 | A completed level always has its successor unlocked |
| Campaign.PlayInOrder | src/components/game/GameLayout.tsx:32-40 | One completion per level, in order, each with that level's own reward |
| Campaign.PlayInOrderIds | src/data/levels.ts:3-680 | The history's level ids are the catalogue's ids, in order |
| Campaign.PlayInOrderEarnsEveryReward | src/data/levels.ts:683-685 | With distinct level ids, every completion is a first one, so the XP earned is the catalogue's sum |
| Campaign.FullCampaign | src/hooks/useGameProgress.ts:39-53 | Clearing all seven levels once from a fresh record completes exactly levels 1 to 7 and unlocks 1 to 8. It earns exactly `getTotalXP()`, which is 1250 |

## Left out

- Letter case: `toLowerCase` is modelled on ASCII letters only. JavaScript also lower-cases other scripts and expands a few characters, such as the dotted capital I. The rule operands and messages of the catalogue are ASCII where case matters.
- Regular expressions: a `regex` rule calls JavaScript's `RegExp`. It is a parameter here (`RegexEngine`), answering with a syntax error or a test outcome for the pattern, the flags `gi` and the raw code. The one sample engine looks for a line feed only. The sticky `lastIndex` state of a `g` regular expression is not modelled, because `checkRule` builds a fresh one per call.
- `checkRule`'s `default` branch (an unknown `type`) returns false. `Rule` is a sum type with the five kinds, so it has no such value; a record with another tag reads as no rule (`Levels.ToRule`) and is checked as false by `Levels.CheckRecord`.
- Unchecked casts: `checkRule` casts the value with `as string` or `as string[]` without looking at it. A list under `contains` or `notContains` (calling `toLowerCase` on a list) and a string under `containsAll` or `containsAny` (calling `every` or `some` on a string) throw a TypeError, which only the `regex` branch catches, so it escapes `validateCode`. `Levels.CheckRecord` and `Levels.ValidateRecords` model the throw as `None`; which exception is raised, and that the loop stops at the first throwing record, are not modelled. A list under `regex` is compiled from its comma-joined text. No record of the catalogue has a mismatched shape (`Levels.CatalogueChecksNeverThrow`).
- Strings: Dafny strings here are sequences of Unicode code points; JavaScript strings are sequences of UTF-16 code units, where a character outside the Basic Multilingual Plane takes two. On well-formed text the two views agree on `includes`, on ASCII lower-casing and on the white-space class. Lone surrogates, which a Dafny `char` cannot hold, are not modelled.
- `getRandomFailMessage` and `getRandomSuccessMessage` pick with `Math.random`. They are not modelled.
- Timestamps: `new Date().toISOString()` becomes a parameter of each update. The module-load timestamp of `defaultProgress` is the constructor's argument.
- Storage: the hook's `localStorage` load and save, the JSON parse with its error branch, and the `isLoaded` flag are not modelled. A record loaded from storage is not checked by the game, and the store here always starts from the default.
- React: `useState`, `useCallback` and re-rendering are not modelled. Each hook action is a method that replaces the `progress` field.
- Numbers: JavaScript numbers are doubles. Level ids, rewards and XP totals are unbounded integers here, because every value the game produces is a small integer.
- Levels: the levels' titles, stories, hints, success and failure messages, and visual types are not modelled. The starter code and solution of levels 2 to 7 are not modelled either. Only the first level's starter and solution are checked against its rules.
- The pages and components (`src/pages`, `src/components`) are not part of this model, beyond `Campaign.PlayInOrder` standing for a learner who clears each level once.
