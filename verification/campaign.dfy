/** The progress record and the catalogue together: a learner who clears
    every level once, in catalogue order, from a fresh start. */
module Campaign {
  import opened Progress
  import opened Levels

  /** One completion per level, in order, each reporting the level's own
      reward (as the game screen does when a level is cleared). */
  function PlayInOrder(ls: seq<Level>, at: string): (cs: seq<Completion>)
    ensures |cs| == |ls|
    ensures forall i :: 0 <= i < |ls| ==> cs[i] == Completion(ls[i].id, ls[i].xpReward, at)
  {
    if ls == [] then [] else PlayInOrder(ls[..|ls| - 1], at) + [Completion(ls[|ls| - 1].id, ls[|ls| - 1].xpReward, at)]
  }

  predicate DistinctIds(ls: seq<Level>) {
    forall i, j :: 0 <= i < j < |ls| ==> ls[i].id != ls[j].id
  }

  /** The level ids of the history are the catalogue's ids, in order. */
  lemma {:induction false} PlayInOrderIds(ls: seq<Level>, at: string)
    ensures LevelIds(PlayInOrder(ls, at)) == seq(|ls|, i requires 0 <= i < |ls| => ls[i].id)
  {
  }

  /** When no level appears twice, every completion is a first one, so the
      rewards earned are the catalogue's whole sum. */
  lemma {:induction false} PlayInOrderEarnsEveryReward(ls: seq<Level>, at: string)
    requires DistinctIds(ls)
    ensures FirstCompletionXP(PlayInOrder(ls, at)) == SumRewards(ls)
  {
    if ls != [] {
      var n := |ls| - 1;
      var cs := PlayInOrder(ls, at);
      assert DistinctIds(ls[..n]);
      PlayInOrderEarnsEveryReward(ls[..n], at);
      assert cs[..n] == PlayInOrder(ls[..n], at);
      var ids := LevelIds(cs[..n]);
      assert forall i :: 0 <= i < n ==> ids[i] == ls[i].id;
      assert ls[n].id !in ids;
    }
  }

  /** Clearing the seven levels once each, in order, from the starting
      record: every level is completed and unlocked, and the XP total is
      the sum `getTotalXP` reports. */
  lemma {:induction false} FullCampaign(stamp: string, at: string)
    ensures var p := Replay(DefaultProgress(stamp), PlayInOrder(AllLevels, at));
      && p.totalXP == GetTotalXP() == 1250
      && (forall id :: LevelCompleted(p, id) <==> 1 <= id <= 7)
      && (forall id :: LevelUnlocked(p, id) <==> 1 <= id <= 8)
      && NoDuplicates(p.completedLevels)
  {
    LevelIdsFollowPositions();
    TotalXP();
    PlayInOrderEarnsEveryReward(AllLevels, at);
    PlayInOrderIds(AllLevels, at);
    var cs := PlayInOrder(AllLevels, at);
    ReplayFromDefault(stamp, cs);
    var ids := LevelIds(cs);
    assert forall i :: 0 <= i < 7 ==> ids[i] == i + 1;
    forall id ensures id in ids <==> 1 <= id <= 7 {
      if 1 <= id <= 7 {
        assert ids[id - 1] == id;
      }
    }
  }
}
