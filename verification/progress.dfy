/** The learner's progress record and the store the game's hook keeps it
    in: completing a level, unlocking an achievement, moving the current
    level, resetting, and the two lookups the level map uses. */
module Progress {

  datatype GameProgress = GameProgress(
    currentLevel: int,
    completedLevels: seq<int>,
    totalXP: int,
    achievements: seq<string>,
    lastPlayed: string)

  /** The starting record; `stamp` is the wall-clock time at which it was
      built. */
  function DefaultProgress(stamp: string): GameProgress {
    GameProgress(1, [], 0, [], stamp)
  }

  predicate NoDuplicates<T(==)>(s: seq<T>) {
    forall i, j :: 0 <= i < j < |s| ==> s[i] != s[j]
  }

  function Max(a: int, b: int): int {
    if a >= b then a else b
  }

  /** `isLevelCompleted` */
  predicate LevelCompleted(p: GameProgress, levelId: int) {
    levelId in p.completedLevels
  }

  /** `isLevelUnlocked`: the first level, or one whose predecessor is done. */
  predicate LevelUnlocked(p: GameProgress, levelId: int) {
    levelId == 1 || LevelCompleted(p, levelId - 1)
  }

  /** The update `completeLevel` applies: a level already completed leaves
      the record as it is; a new one is appended, its reward added, and the
      current level moved past it. */
  function CompleteLevelUpdate(prev: GameProgress, levelId: int, xpReward: int, now: string): (next: GameProgress)
    ensures LevelCompleted(next, levelId)
    ensures LevelCompleted(prev, levelId) ==> next == prev
    ensures !LevelCompleted(prev, levelId) ==>
      && next.completedLevels == prev.completedLevels + [levelId]
      && next.totalXP == prev.totalXP + xpReward
      && next.currentLevel == Max(prev.currentLevel, levelId + 1)
      && next.lastPlayed == now
    ensures next.achievements == prev.achievements
    ensures next.currentLevel >= prev.currentLevel
    ensures forall id :: LevelCompleted(prev, id) ==> LevelCompleted(next, id)
  {
    if levelId in prev.completedLevels then prev
    else prev.(
      completedLevels := prev.completedLevels + [levelId],
      totalXP := prev.totalXP + xpReward,
      currentLevel := Max(prev.currentLevel, levelId + 1),
      lastPlayed := now)
  }

  /** The update `unlockAchievement` applies: an achievement already held
      leaves the record as it is; a new one is appended. The timestamp is
      not touched. */
  function UnlockAchievementUpdate(prev: GameProgress, achievementId: string): (next: GameProgress)
    ensures achievementId in next.achievements
    ensures achievementId in prev.achievements ==> next == prev
    ensures achievementId !in prev.achievements ==> next.achievements == prev.achievements + [achievementId]
    ensures next.(achievements := prev.achievements) == prev
  {
    if achievementId in prev.achievements then prev
    else prev.(achievements := prev.achievements + [achievementId])
  }

  /** The update `setCurrentLevel` applies: any level, lower ones included. */
  function SetCurrentLevelUpdate(prev: GameProgress, levelId: int, now: string): (next: GameProgress)
    ensures next.currentLevel == levelId && next.lastPlayed == now
    ensures next.(currentLevel := prev.currentLevel, lastPlayed := prev.lastPlayed) == prev
  {
    prev.(currentLevel := levelId, lastPlayed := now)
  }

  // ----- Properties of the updates -----

  /** Completing the same level twice is the same as completing it once. */
  lemma {:induction false} CompleteLevelIdempotent(p: GameProgress, levelId: int, xp1: int, xp2: int, t1: string, t2: string)
    ensures var once := CompleteLevelUpdate(p, levelId, xp1, t1);
      CompleteLevelUpdate(once, levelId, xp2, t2) == once
  {
  }

  /** Completion keeps the completed list free of duplicates. */
  lemma {:induction false} CompleteLevelKeepsNoDuplicates(p: GameProgress, levelId: int, xpReward: int, now: string)
    requires NoDuplicates(p.completedLevels)
    ensures NoDuplicates(CompleteLevelUpdate(p, levelId, xpReward, now).completedLevels)
  {
  }

  /** With a non-negative reward the XP total never goes down. */
  lemma {:induction false} CompleteLevelXPGrows(p: GameProgress, levelId: int, xpReward: int, now: string)
    requires xpReward >= 0
    ensures CompleteLevelUpdate(p, levelId, xpReward, now).totalXP >= p.totalXP
  {
  }

  /** Completing a level unlocks the next one, and every level unlocked
      before stays unlocked. */
  lemma {:induction false} CompleteLevelUnlocksNext(p: GameProgress, levelId: int, xpReward: int, now: string)
    ensures var q := CompleteLevelUpdate(p, levelId, xpReward, now);
      && LevelUnlocked(q, levelId + 1)
      && forall id :: LevelUnlocked(p, id) ==> LevelUnlocked(q, id)
  {
  }

  lemma {:induction false} UnlockAchievementIdempotent(p: GameProgress, achievementId: string)
    ensures var once := UnlockAchievementUpdate(p, achievementId);
      UnlockAchievementUpdate(once, achievementId) == once
  {
  }

  lemma {:induction false} UnlockAchievementKeepsNoDuplicates(p: GameProgress, achievementId: string)
    requires NoDuplicates(p.achievements)
    ensures NoDuplicates(UnlockAchievementUpdate(p, achievementId).achievements)
  {
  }

  /** `setCurrentLevel` can move the current level back: nothing in it
      keeps the level at or above the furthest level completed. */
  lemma {:induction false} SetCurrentLevelCanLower(p: GameProgress, now: string)
    requires p.currentLevel > 1
    ensures SetCurrentLevelUpdate(p, 1, now).currentLevel < p.currentLevel
    ensures SetCurrentLevelUpdate(p, 1, now).completedLevels == p.completedLevels
  {
  }

  /** The starting record has nothing completed and only level 1 unlocked. */
  lemma {:induction false} DefaultUnlocksOnlyFirstLevel(stamp: string, levelId: int)
    ensures !LevelCompleted(DefaultProgress(stamp), levelId)
    ensures LevelUnlocked(DefaultProgress(stamp), levelId) <==> levelId == 1
  {
  }

  // ----- A history of completions -----

  /** One call of `completeLevel`, with the time it happened. */
  datatype Completion = Completion(levelId: int, xpReward: int, at: string)

  /** The record after applying the completions in order. */
  function Replay(start: GameProgress, cs: seq<Completion>): GameProgress {
    if cs == [] then start
    else
      var last := cs[|cs| - 1];
      CompleteLevelUpdate(Replay(start, cs[..|cs| - 1]), last.levelId, last.xpReward, last.at)
  }

  /** The level ids of a history, in order. */
  function LevelIds(cs: seq<Completion>): (ids: seq<int>)
    ensures |ids| == |cs| && forall i :: 0 <= i < |cs| ==> ids[i] == cs[i].levelId
  {
    if cs == [] then [] else LevelIds(cs[..|cs| - 1]) + [cs[|cs| - 1].levelId]
  }

  /** The rewards of the completions that were first for their level. */
  function FirstCompletionXP(cs: seq<Completion>): int {
    if cs == [] then 0
    else
      var n := |cs| - 1;
      FirstCompletionXP(cs[..n]) + (if cs[n].levelId in LevelIds(cs[..n]) then 0 else cs[n].xpReward)
  }

  /** The sequence with every element after its first occurrence dropped. */
  function Dedup(s: seq<int>): seq<int> {
    if s == [] then []
    else
      var n := |s| - 1;
      Dedup(s[..n]) + (if s[n] in s[..n] then [] else [s[n]])
  }

  /** Dropping repeats keeps every element and leaves none twice. */
  lemma {:induction false} DedupSpec(s: seq<int>)
    ensures forall x :: x in Dedup(s) <==> x in s
    ensures NoDuplicates(Dedup(s))
  {
    if s != [] {
      var n := |s| - 1;
      DedupSpec(s[..n]);
      assert s == s[..n] + [s[n]];
    }
  }

  /** From the starting record, the completed list is the history's level
      ids with repeats dropped, in the order of their first completion, and
      the XP total is the sum of the rewards passed at each level's first
      completion. */
  lemma {:induction false} ReplayFromDefault(stamp: string, cs: seq<Completion>)
    ensures Replay(DefaultProgress(stamp), cs).completedLevels == Dedup(LevelIds(cs))
    ensures Replay(DefaultProgress(stamp), cs).totalXP == FirstCompletionXP(cs)
    ensures Replay(DefaultProgress(stamp), cs).achievements == []
    ensures forall id :: LevelCompleted(Replay(DefaultProgress(stamp), cs), id) <==> id in LevelIds(cs)
    ensures NoDuplicates(Replay(DefaultProgress(stamp), cs).completedLevels)
  {
    DedupSpec(LevelIds(cs));
    if cs != [] {
      var n := |cs| - 1;
      ReplayFromDefault(stamp, cs[..n]);
      var ids := LevelIds(cs);
      assert ids[..n] == LevelIds(cs[..n]);
    }
  }

  // ----- The store -----

  /** The hook's state: the progress record, replaced by each action.
      `defaultProgress` is built once, when the module is loaded, and a
      reset goes back to it, load-time stamp included. */
  class GameProgressStore {
    var progress: GameProgress
    const defaultProgress: GameProgress

    ghost predicate Valid()
      reads this
    {
      && NoDuplicates(progress.completedLevels)
      && NoDuplicates(progress.achievements)
      && defaultProgress == DefaultProgress(defaultProgress.lastPlayed)
    }

    constructor (loadedAt: string)
      ensures Valid()
      ensures defaultProgress == DefaultProgress(loadedAt)
      ensures progress == defaultProgress
    {
      defaultProgress := DefaultProgress(loadedAt);
      progress := DefaultProgress(loadedAt);
    }

    method CompleteLevel(levelId: int, xpReward: int, now: string)
      requires Valid()
      modifies this
      ensures Valid()
      ensures progress == CompleteLevelUpdate(old(progress), levelId, xpReward, now)
    {
      CompleteLevelKeepsNoDuplicates(progress, levelId, xpReward, now);
      progress := CompleteLevelUpdate(progress, levelId, xpReward, now);
    }

    method UnlockAchievement(achievementId: string)
      requires Valid()
      modifies this
      ensures Valid()
      ensures progress == UnlockAchievementUpdate(old(progress), achievementId)
    {
      UnlockAchievementKeepsNoDuplicates(progress, achievementId);
      progress := UnlockAchievementUpdate(progress, achievementId);
    }

    method SetCurrentLevel(levelId: int, now: string)
      requires Valid()
      modifies this
      ensures Valid()
      ensures progress == SetCurrentLevelUpdate(old(progress), levelId, now)
    {
      progress := SetCurrentLevelUpdate(progress, levelId, now);
    }

    method ResetProgress()
      requires Valid()
      modifies this
      ensures Valid()
      ensures progress == defaultProgress
      ensures progress.currentLevel == 1 && progress.completedLevels == []
      ensures progress.totalXP == 0 && progress.achievements == []
    {
      progress := defaultProgress;
    }

    /** `isLevelUnlocked`: the first level always, any other once the
        level before it is completed. */
    function IsLevelUnlocked(levelId: int): (r: bool)
      reads this
      ensures r <==> levelId == 1 || IsLevelCompleted(levelId - 1)
    {
      LevelUnlocked(progress, levelId)
    }

    /** `isLevelCompleted`; a completed level unlocks the next one. */
    function IsLevelCompleted(levelId: int): (r: bool)
      reads this
      ensures r ==> LevelUnlocked(progress, levelId + 1)
    {
      LevelCompleted(progress, levelId)
    }
  }
}
